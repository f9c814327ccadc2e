/** `create_agent_with_token`: every tool handed to the factory is replaced by a tool of the
    same name and description whose function calls the original one with the access token
    inserted as the first positional argument. */
module ToolWrapping {
  import opened Wrappers

  /** A LangChain tool: its name, its description and the function it runs on positional
      and keyword arguments. */
  datatype Tool = Tool(name: string, description: string, func: (seq<string>, map<string, string>) -> string)

  /** `wrapped` is `original` with `token` bound in front of the positional arguments. */
  ghost predicate WrapsWith(original: Tool, wrapped: Tool, token: string) {
    wrapped.name == original.name &&
    wrapped.description == original.description &&
    forall args, kwargs :: wrapped.func(args, kwargs) == original.func([token] + args, kwargs)
  }

  /** `create_wrapper(original_tool, token)`. */
  function CreateWrapper(original: Tool, token: string): (wrapped: Tool)
    ensures WrapsWith(original, wrapped, token)
  {
    Tool(original.name, original.description, (args, kwargs) => original.func([token] + args, kwargs))
  }

  /** The loop of `create_agent_with_token` that builds `wrapped_tools`. */
  method CreateWrappedTools(tools: seq<Tool>, accessToken: string) returns (wrapped: seq<Tool>)
    ensures |wrapped| == |tools|
    ensures forall i :: 0 <= i < |tools| ==> WrapsWith(tools[i], wrapped[i], accessToken)
  {
    wrapped := [];
    for k := 0 to |tools|
      invariant |wrapped| == k
      invariant forall i :: 0 <= i < k ==> WrapsWith(tools[i], wrapped[i], accessToken)
    {
      wrapped := wrapped + [CreateWrapper(tools[k], accessToken)];
    }
  }

  /** A tool called `name`: the tool node looks tools up by name, and the tool lists of
      this system have distinct names, so which of several namesakes is taken never arises. */
  function Lookup(tools: seq<Tool>, name: string): (r: Option<Tool>)
    ensures r.Some? <==> exists i :: 0 <= i < |tools| && tools[i].name == name
    ensures r.Some? ==> r.value.name == name && r.value in tools
  {
    if tools == [] then None
    else if tools[0].name == name then Some(tools[0])
    else Lookup(tools[1..], name)
  }

  /** Calling the tool named `name` with the given arguments; `None` when no tool has that name. */
  function Call(tools: seq<Tool>, name: string, args: seq<string>, kwargs: map<string, string>): Option<string> {
    match Lookup(tools, name)
    case None => None
    case Some(t) => Some(t.func(args, kwargs))
  }

  /** A call by name to the wrapped tools is the same call to the original tools with the
      token in front of the positional arguments; a name unknown to one list is unknown to
      the other. */
  lemma {:induction false} WrappedCall(tools: seq<Tool>, wrapped: seq<Tool>, token: string,
                                       name: string, args: seq<string>, kwargs: map<string, string>)
    requires |wrapped| == |tools|
    requires forall i :: 0 <= i < |tools| ==> WrapsWith(tools[i], wrapped[i], token)
    ensures Call(wrapped, name, args, kwargs) == Call(tools, name, [token] + args, kwargs)
    decreases |tools|
  {
    if tools != [] {
      assert WrapsWith(tools[0], wrapped[0], token);
      if tools[0].name != name {
        forall i | 0 <= i < |tools[1..]|
          ensures WrapsWith(tools[1..][i], wrapped[1..][i], token)
        {
          assert WrapsWith(tools[i + 1], wrapped[i + 1], token);
        }
        WrappedCall(tools[1..], wrapped[1..], token, name, args, kwargs);
      }
    }
  }
}
