/** The target-selector builder (src/catalyst/core/selector.ts): builder
    methods record criteria, and `toString` writes them out in a fixed order
    as `@base[key=value,...]`. Numbers are integers here. */
module Selector {
  import opened Base
  import opened JsString

  datatype BaseSelector = Nearest | All | Random | Entities | Self | Initiator

  function BaseText(b: BaseSelector): (r: string)
    ensures |r| >= 2 && r[0] == '@' && '[' !in r
  {
    match b
    case Nearest => "@p"
    case All => "@a"
    case Random => "@r"
    case Entities => "@e"
    case Self => "@s"
    case Initiator => "@initiator"
  }

  /** A coordinate and whether it is relative to the executor. */
  datatype Coord = Coord(value: int, relative: bool)

  /** A score criterion: an exact value, or a range with optional bounds. */
  datatype Score = Exact(value: int) | Range(lo: Option<int>, hi: Option<int>)

  /** A game mode: a number or a name. */
  datatype GameMode = ModeNumber(number: int) | ModeName(name: string)

  datatype Item = Item(item: string, quantity: Option<int>, data: Option<int>, location: Option<string>, slot: Option<int>)

  /** Everything a selector builder has recorded. `None` is the unset
      (`null`) value; the score record keeps its entries in insertion order. */
  datatype Criteria = Criteria(
    base: BaseSelector,
    typ: Option<string>, typeNegated: seq<string>,
    count: Option<int>,
    x: Option<Coord>, y: Option<Coord>, z: Option<Coord>,
    rm: Option<int>, r: Option<int>,
    dx: Option<int>, dy: Option<int>, dz: Option<int>,
    scores: seq<(string, Score)>,
    name: Option<string>, nameNegated: seq<string>,
    tag: seq<string>, tagNegated: seq<string>,
    family: seq<string>, familyNegated: seq<string>,
    rxm: Option<int>, rx: Option<int>, rym: Option<int>, ry: Option<int>,
    lm: Option<int>, l: Option<int>,
    mode: Option<GameMode>,
    items: seq<Item>)

  /** A new builder's criteria: only the base. */
  function Initial(base: BaseSelector): Criteria {
    Criteria(base, None, [], None, None, None, None, None, None, None, None, None, [],
             None, [], [], [], [], [], None, None, None, None, None, None, None, [])
  }

  // ---------------------------------------------------------------------------
  // The score record

  /** Where the objective is in the record, if it is there. */
  function KeyIndex(scores: seq<(string, Score)>, key: string): (r: Option<nat>)
    ensures r.None? <==> forall k :: 0 <= k < |scores| ==> scores[k].0 != key
    ensures r.Some? ==> r.value < |scores| && scores[r.value].0 == key
  {
    if scores == [] then None
    else if scores[0].0 == key then Some(0)
    else match KeyIndex(scores[1..], key)
      case None =>
        assert forall k :: 1 <= k < |scores| ==> scores[k] == scores[1..][k - 1];
        None
      case Some(i) => Some(i + 1)
  }

  /** `_scores[objective] = val`: an objective already in the record keeps
      its place and takes the new value; a new one goes at the end. */
  function SetScore(scores: seq<(string, Score)>, key: string, val: Score): (r: seq<(string, Score)>)
    ensures KeyIndex(scores, key).None? ==> r == scores + [(key, val)]
    ensures KeyIndex(scores, key).Some? ==>
      && |r| == |scores|
      && r[KeyIndex(scores, key).value] == (key, val)
      && (forall k :: 0 <= k < |r| && k != KeyIndex(scores, key).value ==> r[k] == scores[k])
  {
    match KeyIndex(scores, key)
    case None => scores + [(key, val)]
    case Some(i) => scores[i := (key, val)]
  }

  predicate UniqueKeys(scores: seq<(string, Score)>) {
    forall i, j :: 0 <= i < j < |scores| ==> scores[i].0 != scores[j].0
  }

  /** The record never holds an objective twice, and after setting an
      objective its value is the one set. */
  lemma SetScoreKeys(scores: seq<(string, Score)>, key: string, val: Score)
    requires UniqueKeys(scores)
    ensures UniqueKeys(SetScore(scores, key, val))
    ensures var r := SetScore(scores, key, val);
      KeyIndex(r, key).Some? && r[KeyIndex(r, key).value] == (key, val)
  {
    var r := SetScore(scores, key, val);
    match KeyIndex(scores, key)
    case None =>
      assert r[|scores|] == (key, val);
    case Some(i) =>
      assert r[i] == (key, val);
  }

  // ---------------------------------------------------------------------------
  // Writing the criteria out

  /** A string criterion, written only when it is a non-empty string. */
  function Truthy(key: string, v: Option<string>): seq<string> {
    if v.Some? && v.value != [] then [key + "=" + v.value] else []
  }

  /** A number criterion, written whenever it is set, 0 included. */
  function Number(key: string, v: Option<int>): seq<string> {
    if v.Some? then [key + "=" + Decimal(v.value)] else []
  }

  /** A coordinate, with `~` in front when relative. */
  function CoordArg(key: string, v: Option<Coord>): seq<string> {
    if v.Some? then [key + "=" + (if v.value.relative then "~" else "") + Decimal(v.value.value)] else []
  }

  /** One argument per value, each the prefix followed by the value, in order. */
  function Each(prefix: string, vs: seq<string>): (r: seq<string>)
    ensures |r| == |vs|
    ensures forall k :: 0 <= k < |vs| ==> r[k] == prefix + vs[k]
  {
    if vs == [] then []
    else
      var init := Each(prefix, vs[..|vs| - 1]);
      init + [prefix + vs[|vs| - 1]]
  }

  /** An exact score is its value; a range is `lo..hi` without a missing bound. */
  function ScoreText(v: Score): string {
    match v
    case Exact(n) => Decimal(n)
    case Range(lo, hi) =>
      (if lo.Some? then Decimal(lo.value) else "") + ".." + (if hi.Some? then Decimal(hi.value) else "")
  }

  function ScoreTexts(scores: seq<(string, Score)>): (r: seq<string>)
    ensures |r| == |scores|
  {
    if scores == [] then []
    else
      var last := scores[|scores| - 1];
      ScoreTexts(scores[..|scores| - 1]) + [last.0 + "=" + ScoreText(last.1)]
  }

  /** The scores, in one `scores={...}` argument when there are any. */
  function ScoresArg(scores: seq<(string, Score)>): seq<string> {
    if scores != [] then ["scores={" + Join(ScoreTexts(scores), ",") + "}"] else []
  }

  function ModeArg(m: Option<GameMode>): seq<string> {
    match m
    case None => []
    case Some(ModeNumber(n)) => ["m=" + Decimal(n)]
    case Some(ModeName(s)) => ["m=" + s]
  }

  /** The fields of one item, the item name first. */
  function ItemParts(v: Item): seq<string> {
    ["item=" + v.item]
    + Number("quantity", v.quantity)
    + Number("data", v.data)
    + (if v.location.Some? then ["location=" + v.location.value] else [])
    + Number("slot", v.slot)
  }

  function ItemText(v: Item): string {
    "{" + Join(ItemParts(v), ",") + "}"
  }

  function ItemTexts(items: seq<Item>): (r: seq<string>)
    ensures |r| == |items|
  {
    if items == [] then [] else ItemTexts(items[..|items| - 1]) + [ItemText(items[|items| - 1])]
  }

  /** One item is written as an object, several as an array of objects. */
  function HasItem(items: seq<Item>): seq<string> {
    var texts := ItemTexts(items);
    if |texts| == 1 then ["hasitem=" + texts[0]]
    else if |texts| > 1 then ["hasitem=[" + Join(texts, ",") + "]"]
    else []
  }

  /** The arguments of the selector, in the order `toString` writes them:
      the type and count, the area, the scores and names, and the rotation,
      level, mode and items. */
  function Args(c: Criteria): seq<string> {
    TargetArgs(c) + AreaArgs(c) + IdentityArgs(c) + StatusArgs(c)
  }

  function TargetArgs(c: Criteria): seq<string> {
    Truthy("type", c.typ) + Each("type=!", c.typeNegated) + Number("c", c.count)
  }

  function AreaArgs(c: Criteria): seq<string> {
    CoordArg("x", c.x) + CoordArg("y", c.y) + CoordArg("z", c.z)
    + Number("rm", c.rm) + Number("r", c.r)
    + Number("dx", c.dx) + Number("dy", c.dy) + Number("dz", c.dz)
  }

  function IdentityArgs(c: Criteria): seq<string> {
    ScoresArg(c.scores)
    + Truthy("name", c.name) + Each("name=!", c.nameNegated)
    + Each("tag=", c.tag) + Each("tag=!", c.tagNegated)
    + Each("family=", c.family) + Each("family=!", c.familyNegated)
  }

  function StatusArgs(c: Criteria): seq<string> {
    Number("rxm", c.rxm) + Number("rx", c.rx) + Number("rym", c.rym) + Number("ry", c.ry)
    + Number("lm", c.lm) + Number("l", c.l)
    + ModeArg(c.mode)
    + HasItem(c.items)
  }

  /** `toString`: the base, then the arguments in brackets if there are any. */
  function Render(c: Criteria): string {
    if Args(c) == [] then BaseText(c.base) else BaseText(c.base) + "[" + Join(Args(c), ",") + "]"
  }

  predicate NoTarget(c: Criteria) {
    (c.typ.None? || c.typ.value == []) && c.typeNegated == [] && c.count.None?
  }

  predicate NoArea(c: Criteria) {
    c.x.None? && c.y.None? && c.z.None? && c.rm.None? && c.r.None?
    && c.dx.None? && c.dy.None? && c.dz.None?
  }

  predicate NoIdentity(c: Criteria) {
    c.scores == [] && (c.name.None? || c.name.value == []) && c.nameNegated == []
    && c.tag == [] && c.tagNegated == [] && c.family == [] && c.familyNegated == []
  }

  predicate NoStatus(c: Criteria) {
    c.rxm.None? && c.rx.None? && c.rym.None? && c.ry.None? && c.lm.None? && c.l.None?
    && c.mode.None? && c.items == []
  }

  /** Nothing recorded that would be written out: no non-empty type or
      name, nothing in the lists, the record or the items, and no number,
      coordinate or mode set. */
  predicate NoCriteria(c: Criteria) {
    NoTarget(c) && NoArea(c) && NoIdentity(c) && NoStatus(c)
  }

  /** Each group of arguments is empty exactly when nothing in it is set. */
  lemma EmptyGroups(c: Criteria)
    ensures TargetArgs(c) == [] <==> NoTarget(c)
    ensures AreaArgs(c) == [] <==> NoArea(c)
    ensures IdentityArgs(c) == [] <==> NoIdentity(c)
    ensures StatusArgs(c) == [] <==> NoStatus(c)
  {
    EmptyStatus(c);
  }

  lemma EmptyStatus(c: Criteria)
    ensures StatusArgs(c) == [] <==> NoStatus(c)
  {
    ItemsWritten(c.items);
  }

  /** There are brackets exactly when some criterion is recorded; without
      any, the selector is its base alone. */
  lemma Brackets(c: Criteria)
    ensures Args(c) == [] <==> NoCriteria(c)
    ensures Render(c) == BaseText(c.base) <==> NoCriteria(c)
    ensures '[' in Render(c) <==> !NoCriteria(c)
  {
    EmptyGroups(c);
    if Args(c) != [] {
      var s := BaseText(c.base) + "[" + Join(Args(c), ",") + "]";
      assert s[|BaseText(c.base)|] == '[';
    }
  }

  /** A new builder writes `@s` by default. */
  lemma DefaultSelector()
    ensures Render(Initial(Self)) == "@s"
  {
    Brackets(Initial(Self));
  }

  /** The score record is written as `objective=value` entries in
      insertion order; a range leaves out a missing bound. */
  lemma ScoresWritten(scores: seq<(string, Score)>, k: nat)
    requires k < |scores|
    ensures ScoreTexts(scores)[k] == scores[k].0 + "=" + ScoreText(scores[k].1)
    ensures ScoresArg(scores) != []
    decreases |scores|
  {
    if k < |scores| - 1 {
      ScoresWritten(scores[..|scores| - 1], k);
    }
  }

  /** Items: none gives no argument, one an object, several an array. */
  lemma ItemsWritten(items: seq<Item>)
    ensures |items| == 0 ==> HasItem(items) == []
    ensures |items| == 1 ==> HasItem(items) == ["hasitem=" + ItemText(items[0])]
    ensures |items| > 1 ==> |HasItem(items)| == 1 && HasItem(items)[0][..9] == "hasitem=["
  {
    if |items| == 1 {
      assert items[..0] == [];
    }
    if |items| > 1 {
      var s := "hasitem=[" + Join(ItemTexts(items), ",") + "]";
      assert HasItem(items) == [s];
      assert s[..9] == "hasitem=[";
    }
  }

  // ---------------------------------------------------------------------------
  // The builder

  class Selector {
    var base: BaseSelector
    var typ: Option<string>
    var typeNegated: seq<string>
    var count: Option<int>
    var x: Option<Coord>
    var y: Option<Coord>
    var z: Option<Coord>
    var rm: Option<int>
    var r: Option<int>
    var dx: Option<int>
    var dy: Option<int>
    var dz: Option<int>
    var scores: seq<(string, Score)>
    var name: Option<string>
    var nameNegated: seq<string>
    var tag: seq<string>
    var tagNegated: seq<string>
    var family: seq<string>
    var familyNegated: seq<string>
    var rxm: Option<int>
    var rx: Option<int>
    var rym: Option<int>
    var ry: Option<int>
    var lm: Option<int>
    var l: Option<int>
    var mode: Option<GameMode>
    var items: seq<Item>

    /** The recorded criteria. */
    function State(): Criteria
      reads this
    {
      Criteria(base, typ, typeNegated, count, x, y, z, rm, r, dx, dy, dz, scores,
               name, nameNegated, tag, tagNegated, family, familyNegated,
               rxm, rx, rym, ry, lm, l, mode, items)
    }

    constructor(base: BaseSelector)
      ensures State() == Initial(base)
    {
      this.base := base;
      typ, typeNegated, count := None, [], None;
      x, y, z, rm, r, dx, dy, dz := None, None, None, None, None, None, None, None;
      scores, name, nameNegated := [], None, [];
      tag, tagNegated, family, familyNegated := [], [], [], [];
      rxm, rx, rym, ry, lm, l, mode, items := None, None, None, None, None, None, None, [];
    }

    /** `type`: a plain type replaces the earlier one; negated types accumulate. */
    method Type(t: string, negate: bool)
      modifies this
      ensures State() == if negate then old(State()).(typeNegated := old(typeNegated) + [t])
                         else old(State()).(typ := Some(t))
    {
      if !negate {
        typ := Some(t);
      } else {
        typeNegated := typeNegated + [t];
      }
    }

    method Count(n: int)
      modifies this
      ensures State() == old(State()).(count := Some(n))
    {
      count := Some(n);
    }

    method X(v: int, rel: bool)
      modifies this
      ensures State() == old(State()).(x := Some(Coord(v, rel)))
    {
      x := Some(Coord(v, rel));
    }

    method Y(v: int, rel: bool)
      modifies this
      ensures State() == old(State()).(y := Some(Coord(v, rel)))
    {
      y := Some(Coord(v, rel));
    }

    method Z(v: int, rel: bool)
      modifies this
      ensures State() == old(State()).(z := Some(Coord(v, rel)))
    {
      z := Some(Coord(v, rel));
    }

    method MinRadius(v: int)
      modifies this
      ensures State() == old(State()).(rm := Some(v))
    {
      rm := Some(v);
    }

    method MaxRadius(v: int)
      modifies this
      ensures State() == old(State()).(r := Some(v))
    {
      r := Some(v);
    }

    method Length(v: int)
      modifies this
      ensures State() == old(State()).(dx := Some(v))
    {
      dx := Some(v);
    }

    method Height(v: int)
      modifies this
      ensures State() == old(State()).(dy := Some(v))
    {
      dy := Some(v);
    }

    method Width(v: int)
      modifies this
      ensures State() == old(State()).(dz := Some(v))
    {
      dz := Some(v);
    }

    method Scores(objective: string, val: Score)
      modifies this
      ensures State() == old(State()).(scores := SetScore(old(scores), objective, val))
    {
      scores := SetScore(scores, objective, val);
    }

    /** `name`: a plain name replaces the earlier one; negated names accumulate. */
    method Name(n: string, negate: bool)
      modifies this
      ensures State() == if negate then old(State()).(nameNegated := old(nameNegated) + [n])
                         else old(State()).(name := Some(n))
    {
      if !negate {
        name := Some(n);
      } else {
        nameNegated := nameNegated + [n];
      }
    }

    method Tag(t: string, negate: bool)
      modifies this
      ensures State() == if negate then old(State()).(tagNegated := old(tagNegated) + [t])
                         else old(State()).(tag := old(tag) + [t])
    {
      if !negate {
        tag := tag + [t];
      } else {
        tagNegated := tagNegated + [t];
      }
    }

    method Family(f: string, negate: bool)
      modifies this
      ensures State() == if negate then old(State()).(familyNegated := old(familyNegated) + [f])
                         else old(State()).(family := old(family) + [f])
    {
      if !negate {
        family := family + [f];
      } else {
        familyNegated := familyNegated + [f];
      }
    }

    method MinXrot(v: int)
      modifies this
      ensures State() == old(State()).(rxm := Some(v))
    {
      rxm := Some(v);
    }

    method MaxXrot(v: int)
      modifies this
      ensures State() == old(State()).(rx := Some(v))
    {
      rx := Some(v);
    }

    method MinYrot(v: int)
      modifies this
      ensures State() == old(State()).(rym := Some(v))
    {
      rym := Some(v);
    }

    method MaxYrot(v: int)
      modifies this
      ensures State() == old(State()).(ry := Some(v))
    {
      ry := Some(v);
    }

    method MinLvl(v: int)
      modifies this
      ensures State() == old(State()).(lm := Some(v))
    {
      lm := Some(v);
    }

    method MaxLvl(v: int)
      modifies this
      ensures State() == old(State()).(l := Some(v))
    {
      l := Some(v);
    }

    method Mode(m: Option<GameMode>)
      modifies this
      ensures State() == old(State()).(mode := m)
    {
      mode := m;
    }

    method AddItem(v: Item)
      modifies this
      ensures State() == old(State()).(items := old(items) + [v])
    {
      items := items + [v];
    }

    /** `toString`: the arguments are collected in their fixed order, then
        appended in brackets if there are any. */
    method ToString() returns (txt: string)
      ensures txt == Render(State())
    {
      var notTypes := EachArgs("type=!", typeNegated);
      var scoreArg := ScoreArgs(scores);
      var notNames := EachArgs("name=!", nameNegated);
      var tags := EachArgs("tag=", tag);
      var notTags := EachArgs("tag=!", tagNegated);
      var families := EachArgs("family=", family);
      var notFamilies := EachArgs("family=!", familyNegated);
      var itemArg := ItemArgs(items);
      var args := Truthy("type", typ) + notTypes + Number("c", count)
        + (CoordArg("x", x) + CoordArg("y", y) + CoordArg("z", z)
           + Number("rm", rm) + Number("r", r)
           + Number("dx", dx) + Number("dy", dy) + Number("dz", dz))
        + (scoreArg + Truthy("name", name) + notNames + tags + notTags + families + notFamilies)
        + (Number("rxm", rxm) + Number("rx", rx) + Number("rym", rym) + Number("ry", ry)
           + Number("lm", lm) + Number("l", l) + ModeArg(mode) + itemArg);
      assert args == Args(State());
      txt := BaseText(base);
      if |args| > 0 {
        txt := txt + "[" + Join(args, ",") + "]";
      }
    }
  }

  // ---------------------------------------------------------------------------
  // The loops of `toString`

  /** A `forEach` that pushes each value behind a prefix. */
  method EachArgs(prefix: string, vs: seq<string>) returns (r: seq<string>)
    ensures r == Each(prefix, vs)
  {
    r := [];
    var i := 0;
    while i < |vs|
      invariant 0 <= i <= |vs|
      invariant r == Each(prefix, vs[..i])
    {
      assert vs[..i + 1][..i] == vs[..i];
      r := r + [prefix + vs[i]];
      i := i + 1;
    }
    assert vs[..i] == vs;
  }

  /** The loop over the score record, then the `scores={...}` argument if
      any entry was written. */
  method ScoreArgs(record: seq<(string, Score)>) returns (r: seq<string>)
    ensures r == ScoresArg(record)
  {
    var texts := [];
    var i := 0;
    while i < |record|
      invariant 0 <= i <= |record|
      invariant texts == ScoreTexts(record[..i])
    {
      assert record[..i + 1][..i] == record[..i];
      var (k, v) := record[i];
      texts := texts + [k + "=" + ScoreText(v)];
      i := i + 1;
    }
    assert record[..i] == record;
    r := [];
    if |texts| > 0 {
      r := ["scores={" + Join(texts, ",") + "}"];
    }
  }

  /** The loop over the items, then the `hasitem` argument. */
  method ItemArgs(items: seq<Item>) returns (r: seq<string>)
    ensures r == HasItem(items)
  {
    var texts := [];
    var i := 0;
    while i < |items|
      invariant 0 <= i <= |items|
      invariant texts == ItemTexts(items[..i])
    {
      assert items[..i + 1][..i] == items[..i];
      texts := texts + [ItemText(items[i])];
      i := i + 1;
    }
    assert items[..i] == items;
    r := [];
    if |texts| == 1 {
      r := ["hasitem=" + texts[0]];
    } else if |texts| > 1 {
      r := ["hasitem=[" + Join(texts, ",") + "]"];
    }
  }
}
