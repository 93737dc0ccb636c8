/**
 What a resolved config says at a path of keys: the value of the highest layer that says anything
 there. Of the user's and the agent's layer the empty values at the top say nothing.
 */
module ConfigPaths {
  import opened Prelude
  import opened ConfigTree

  type Path = seq<string>

  // The plain value at the end of the path, if that is where one is.
  function PlainAt(t: Tree, path: Path): Option<Scalar>
    decreases |path|
  {
    if path == [] then if t.Leaf? then Some(t.value) else None
    else if t.Node? && path[0] in t.m then PlainAt(t.m[path[0]], path[1..])
    else None
  }

  // On the way along the path a map lacks the next key.
  predicate Silent(t: Tree, path: Path)
    decreases |path|
  {
    path != [] && t.Node? && (path[0] in t.m ==> Silent(t.m[path[0]], path[1..]))
  }

  lemma {:induction false} SilentSaysNothing(t: Tree, path: Path)
    requires Silent(t, path)
    ensures PlainAt(t, path) == None
    decreases |path|
  {
    if path[0] in t.m {
      SilentSaysNothing(t.m[path[0]], path[1..]);
    }
  }

  // The right side decides wherever it is not silent, maps being merged at every depth.
  lemma {:induction false} MergeByPath(d: Tree, s: Tree, path: Path)
    requires d.Node? && s.Node?
    ensures PlainAt(Merge(d, s), path) == if Silent(s, path) then PlainAt(d, path) else PlainAt(s, path)
    decreases |path|
  {
    if path != [] && path[0] in s.m {
      var k := path[0];
      if k in d.m && d.m[k].Node? && s.m[k].Node? {
        MergeByPath(d.m[k], s.m[k], path[1..]);
      } else if Silent(s, path) {
        SilentSaysNothing(s.m[k], path[1..]);
      }
    }
  }

  // What cleanNil makes of no account: nil, the empty string and empty lists of either type.
  predicate Void(t: Tree) {
    match t
    case Leaf(Nil) => true
    case Leaf(Text(text)) => |text| == 0
    case Leaf(AnyList(items)) => |items| == 0
    case Leaf(TextList(texts)) => |texts| == 0
    case Leaf(Other(_)) => false
    case Node(_) => false
  }

  // A layer that is cleaned says nothing on this path.
  predicate Mute(t: Tree, path: Path)
    requires t.Node? && path != []
  {
    path[0] in t.m ==> Void(t.m[path[0]]) || Silent(t.m[path[0]], path[1..])
  }

  lemma CleanByPath(t: Tree, path: Path)
    requires t.Node? && path != []
    ensures Silent(Clean(t), path) <==> Mute(t, path)
    ensures !Mute(t, path) ==> PlainAt(Clean(t), path) == PlainAt(t, path)
  {
    assert path[0] in t.m ==> (path[0] in Clean(t).m <==> !Void(t.m[path[0]]));
  }

  // The agent's layer decides, then the user's unless a workspace is given, then the server's, then
  // the defaults: the first that says something on the path.
  lemma ConfigByPath(defaults: Slot, server: Slot, user: Slot, agent: Tree, workspace: string, path: Path)
    requires IsConfig(defaults) && IsConfig(server) && IsConfig(user) && agent.Node? && path != []
    ensures PlainAt(AgentConfig(defaults, server, user, Some(agent), workspace).value, path) ==
      if !Mute(agent, path) then PlainAt(agent, path)
      else if workspace == "" && user.Some? && !Mute(user.value, path) then PlainAt(user.value, path)
      else if server.Some? && !Silent(server.value, path) then PlainAt(server.value, path)
      else if defaults.Some? then PlainAt(defaults.value, path)
      else None
  {
    hide PlainAt, Silent, Mute, AgentConfig;
    var base := if defaults.Some? then defaults.value else Node(map[]);
    var served := if server.Some? then Merge(base, server.value) else base;
    var personal := if workspace == "" && user.Some? then Merge(served, Clean(user.value)) else served;
    InOrder(defaults, server, user, agent, workspace);
    MergeByPath(personal, Clean(agent), path);
    CleanByPath(agent, path);
    if workspace == "" && user.Some? {
      MergeByPath(served, Clean(user.value), path);
      CleanByPath(user.value, path);
    }
    if server.Some? {
      MergeByPath(base, server.value, path);
    }
    NothingInEmpty(path);
  }

  lemma NothingInEmpty(path: Path)
    requires path != []
    ensures PlainAt(Node(map[]), path) == None
  {
  }

  // A plain value of the agent's that is not empty is the config's, whatever the other layers hold.
  lemma AgentDecides(defaults: Slot, server: Slot, user: Slot, agent: Tree, workspace: string, k: string)
    requires IsConfig(defaults) && IsConfig(server) && IsConfig(user) && agent.Node?
    requires k in agent.m && agent.m[k].Leaf? && !Void(agent.m[k])
    ensures At(AgentConfig(defaults, server, user, Some(agent), workspace).value, k) == Some(agent.m[k])
  {
    InOrder(defaults, server, user, agent, workspace);
  }

  // Where the agent's layer holds nothing, or an empty value, the layers below decide alone.
  lemma AgentYields(defaults: Slot, server: Slot, user: Slot, agent: Tree, workspace: string, k: string)
    requires IsConfig(defaults) && IsConfig(server) && IsConfig(user) && agent.Node?
    requires k in agent.m ==> Void(agent.m[k])
    ensures At(AgentConfig(defaults, server, user, Some(agent), workspace).value, k)
         == At(AgentConfig(defaults, server, user, Some(Node(map[])), workspace).value, k)
  {
    InOrder(defaults, server, user, agent, workspace);
    InOrder(defaults, server, user, Node(map[]), workspace);
  }
}
