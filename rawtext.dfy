/** The rawtext builder (src/catalyst/core/rawtext.ts): a list of message
    nodes, built by appending or prepending, and written out as the JSON
    object `{ "rawtext": [...] }` the game reads. */
module RawText {
  import opened Base
  import opened Json

  /** One node of a rawtext: a plain string, a translation key with its
      arguments, a target selector, or a scoreboard score. */
  datatype Node =
    | TextNode(text: string)
    | TranslateNode(key: string, args: With)
    | SelectorNode(selector: string)
    | ScoreNode(objective: string, name: string)

  /** The `with` of a translation: absent, a list of strings, or a nested
      rawtext (given by its nodes). */
  datatype With = NoArgs | Strings(strs: seq<string>) | Nested(nodes: seq<Node>)

  /** What `with(...)` is called with: strings, or another rawtext. */
  datatype WithArg = StringArgs(values: seq<string>) | RawArg(raw: seq<Node>)

  // ---------------------------------------------------------------------------
  // Translation arguments

  /** The new `with` of a translation node: a rawtext replaces whatever was
      there; strings are added to an earlier list of strings, and replace
      anything else. */
  function Extend(w: With, arg: WithArg): (r: With)
    ensures arg.RawArg? ==> r == Nested(arg.raw)
    ensures arg.StringArgs? ==> r.Strings? && |r.strs| == (if w.Strings? then |w.strs| else 0) + |arg.values|
    ensures arg.StringArgs? && w.Strings? ==> r.strs[..|w.strs|] == w.strs && r.strs[|w.strs|..] == arg.values
    ensures arg.StringArgs? && !w.Strings? ==> r.strs == arg.values
  {
    match arg
    case RawArg(raw) => Nested(raw)
    case StringArgs(values) =>
      if w.Strings? then
        var r := w.strs + values;
        assert r[..|w.strs|] == w.strs && r[|w.strs|..] == values;
        Strings(r)
      else Strings(values)
  }

  /** Two calls with strings add up to one call with both lists. */
  lemma ExtendTwice(w: With, a: seq<string>, b: seq<string>)
    ensures Extend(Extend(w, StringArgs(a)), StringArgs(b)) == Extend(w, StringArgs(a + b))
  {
    if w.Strings? {
      assert w.strs + a + b == w.strs + (a + b);
    }
  }

  /** `with(...)`: only a last node that is a translation changes; every
      other node, and a list whose last node is anything else, stays. */
  function WithLast(nodes: seq<Node>, arg: WithArg): (r: seq<Node>)
    ensures |r| == |nodes|
    ensures forall i :: 0 <= i < |nodes| - 1 ==> r[i] == nodes[i]
    ensures nodes != [] && nodes[|nodes| - 1].TranslateNode? ==>
      r[|r| - 1] == TranslateNode(nodes[|nodes| - 1].key, Extend(nodes[|nodes| - 1].args, arg))
    ensures (nodes == [] || !nodes[|nodes| - 1].TranslateNode?) ==> r == nodes
  {
    if nodes != [] && nodes[|nodes| - 1].TranslateNode? then
      var last := nodes[|nodes| - 1];
      nodes[|nodes| - 1 := TranslateNode(last.key, Extend(last.args, arg))]
    else nodes
  }

  /** A translation followed by two `with` calls with strings carries both
      lists of arguments, in order; the nodes before it are untouched. */
  lemma TranslateWithStrings(nodes: seq<Node>, key: string, a: seq<string>, b: seq<string>)
    ensures WithLast(WithLast(nodes + [TranslateNode(key, NoArgs)], StringArgs(a)), StringArgs(b))
      == nodes + [TranslateNode(key, Strings(a + b))]
  {
    var n1 := nodes + [TranslateNode(key, NoArgs)];
    var n2 := WithLast(n1, StringArgs(a));
    assert n2 == nodes + [TranslateNode(key, Strings(a))];
    var n3 := WithLast(n2, StringArgs(b));
    assert n3[|n3| - 1] == TranslateNode(key, Strings(a + b));
  }

  // ---------------------------------------------------------------------------
  // The JSON form

  function StrValues(strs: seq<string>): (r: seq<Json>)
    ensures |r| == |strs| && forall i :: 0 <= i < |r| ==> r[i] == Str(strs[i])
  {
    seq(|strs|, i requires 0 <= i < |strs| => Str(strs[i]))
  }

  /** The JSON object of one node, with the keys in the order the source
      creates them; a nested rawtext is written as its own JSON object. */
  function NodeJson(n: Node): Json
    decreases n
  {
    match n
    case TextNode(t) => Obj([("text", Str(t))])
    case TranslateNode(k, NoArgs) => Obj([("translate", Str(k))])
    case TranslateNode(k, Strings(strs)) => Obj([("translate", Str(k)), ("with", Arr(StrValues(strs)))])
    case TranslateNode(k, Nested(ns)) => Obj([("translate", Str(k)), ("with", RawJson(ns))])
    case SelectorNode(s) => Obj([("selector", Str(s))])
    case ScoreNode(o, nm) => Obj([("score", Obj([("objective", Str(o)), ("name", Str(nm))]))])
  }

  /** `toJSON`: `{ "rawtext": [...] }` with the nodes in order. */
  function RawJson(ns: seq<Node>): Json
    decreases ns
  {
    Obj([("rawtext", Arr(seq(|ns|, i requires 0 <= i < |ns| => NodeJson(ns[i]))))])
  }

  /** Reading a node back from its JSON object. */
  function NodeOf(j: Json): Option<Node>
    decreases j, 2
  {
    match j
    case Obj(es) =>
      if |es| == 1 then
        var (k, v) := es[0];
        if k == "score" then ScoreOf(v)
        else if !v.Str? then None
        else if k == "text" then Some(TextNode(v.s))
        else if k == "translate" then Some(TranslateNode(v.s, NoArgs))
        else if k == "selector" then Some(SelectorNode(v.s))
        else None
      else if |es| == 2 && es[0].0 == "translate" && es[0].1.Str? && es[1].0 == "with" then
        match WithOf(es[1].1)
        case None => None
        case Some(w) => Some(TranslateNode(es[0].1.s, w))
      else None
    case _ => None
  }

  function ScoreOf(v: Json): Option<Node> {
    match v
    case Obj(es) =>
      if |es| == 2 && es[0].0 == "objective" && es[0].1.Str? && es[1].0 == "name" && es[1].1.Str?
      then Some(ScoreNode(es[0].1.s, es[1].1.s))
      else None
    case _ => None
  }

  /** Reading back a `with`: an array of strings or a nested rawtext. */
  function WithOf(j: Json): Option<With>
    decreases j, 1
  {
    match j
    case Arr(items) =>
      if forall i :: 0 <= i < |items| ==> items[i].Str?
      then Some(Strings(seq(|items|, i requires 0 <= i < |items| && items[i].Str? => items[i].s)))
      else None
    case _ =>
      match RawOf(j)
      case None => None
      case Some(ns) => Some(Nested(ns))
  }

  /** Reading back a whole rawtext. */
  function RawOf(j: Json): Option<seq<Node>>
    decreases j, 0
  {
    match j
    case Obj(es) =>
      if |es| == 1 && es[0].0 == "rawtext" && es[0].1.Arr? then
        var items := es[0].1.items;
        if forall i :: 0 <= i < |items| ==> NodeOf(items[i]).Some?
        then Some(seq(|items|, i requires 0 <= i < |items| && NodeOf(items[i]).Some? => NodeOf(items[i]).value))
        else None
      else None
    case _ => None
  }

  /** Every node is read back from its JSON object as itself. */
  lemma {:induction false} NodeRoundTrip(n: Node)
    ensures NodeOf(NodeJson(n)) == Some(n)
    decreases n
  {
    match n
    case TranslateNode(k, Strings(strs)) =>
      var items := StrValues(strs);
      assert seq(|items|, i requires 0 <= i < |items| && items[i].Str? => items[i].s) == strs;
    case TranslateNode(k, Nested(ns)) =>
      RawRoundTrip(ns);
    case _ =>
  }

  /** `toJSON` loses nothing: the rawtext is read back from it. */
  lemma {:induction false} RawRoundTrip(ns: seq<Node>)
    ensures RawOf(RawJson(ns)) == Some(ns)
    decreases ns
  {
    var items := RawJson(ns).entries[0].1.items;
    forall i | 0 <= i < |items|
      ensures NodeOf(items[i]) == Some(ns[i])
    {
      NodeRoundTrip(ns[i]);
    }
    assert seq(|items|, i requires 0 <= i < |items| && NodeOf(items[i]).Some? => NodeOf(items[i]).value) == ns;
  }

  /** Different rawtexts have different JSON forms. */
  lemma RawJsonInjective(a: seq<Node>, b: seq<Node>)
    requires RawJson(a) == RawJson(b)
    ensures a == b
  {
    RawRoundTrip(a);
    RawRoundTrip(b);
  }

  // ---------------------------------------------------------------------------
  // The builder

  class RawText {
    var nodes: seq<Node>

    /** `new RawText(nodes)`: the given nodes, none by default. */
    constructor(nodes: seq<Node>)
      ensures this.nodes == nodes
    {
      this.nodes := nodes;
    }

    /** `append`: the node goes at the end. */
    method Append(node: Node)
      modifies this
      ensures nodes == old(nodes) + [node]
    {
      nodes := nodes + [node];
    }

    /** `prepend`: the node goes at the start. */
    method Prepend(node: Node)
      modifies this
      ensures nodes == [node] + old(nodes)
    {
      nodes := [node] + nodes;
    }

    method Text(val: string, prepend: bool)
      modifies this
      ensures nodes == if prepend then [TextNode(val)] + old(nodes) else old(nodes) + [TextNode(val)]
    {
      if prepend {
        Prepend(TextNode(val));
      } else {
        Append(TextNode(val));
      }
    }

    /** `translate`: a translation node without arguments. */
    method Translate(key: string, prepend: bool)
      modifies this
      ensures nodes == if prepend then [TranslateNode(key, NoArgs)] + old(nodes)
                       else old(nodes) + [TranslateNode(key, NoArgs)]
    {
      if prepend {
        Prepend(TranslateNode(key, NoArgs));
      } else {
        Append(TranslateNode(key, NoArgs));
      }
    }

    method Selector(val: string, prepend: bool)
      modifies this
      ensures nodes == if prepend then [SelectorNode(val)] + old(nodes) else old(nodes) + [SelectorNode(val)]
    {
      if prepend {
        Prepend(SelectorNode(val));
      } else {
        Append(SelectorNode(val));
      }
    }

    method Score(objective: string, name: string, prepend: bool)
      modifies this
      ensures nodes == if prepend then [ScoreNode(objective, name)] + old(nodes)
                       else old(nodes) + [ScoreNode(objective, name)]
    {
      if prepend {
        Prepend(ScoreNode(objective, name));
      } else {
        Append(ScoreNode(objective, name));
      }
    }

    /** `with`: arguments for the last node when it is a translation. */
    method With(arg: WithArg)
      modifies this
      ensures nodes == WithLast(old(nodes), arg)
    {
      if |nodes| > 0 && nodes[|nodes| - 1].TranslateNode? {
        var node := nodes[|nodes| - 1];
        nodes := nodes[|nodes| - 1 := TranslateNode(node.key, Extend(node.args, arg))];
      }
    }

    /** `toJSON`: the JSON form, from which the nodes read back. */
    function ToJson(): (r: Json)
      reads this
      ensures RawOf(r) == Some(nodes)
    {
      RawRoundTrip(nodes);
      RawJson(nodes)
    }
  }
}
