/** The home command (src/server/commands/home.ts): its grammar, and the
    rules of the player's home table for adding, deleting, finding and
    listing homes. */
module Home {
  import opened Base
  import opened JsString
  import opened CmdParser

  // ---------------------------------------------------------------------------
  // Grammar

  const NameArg := Arg(Some("name"), Named("string"), "name", true, Undefined)

  /** Three named sub-commands, each with a required home name. */
  const HomeInfo := Sub("home", "", ["h"], [], [], [
    Sub("add", "add", ["new", "set"], [NameArg], [], []),
    Sub("delete", "del", ["del", "remove", "rm"], [NameArg], [], []),
    Sub("teleport", "tp", ["tp"], [NameArg], [], [])
  ])

  /** Each name and alias selects its sub-command, whose `dest` is the one
      the command reads; any other word selects none. */
  lemma HomeSubs(t: string)
    ensures t in {"add", "new", "set"} <==> FindNamedSub(HomeInfo.subs, t) == Some(0)
    ensures t in {"delete", "del", "remove", "rm"} <==> FindNamedSub(HomeInfo.subs, t) == Some(1)
    ensures t in {"teleport", "tp"} <==> FindNamedSub(HomeInfo.subs, t) == Some(2)
    ensures HomeInfo.subs[0].dest == "add" && HomeInfo.subs[1].dest == "del" && HomeInfo.subs[2].dest == "tp"
  {
    var subs := HomeInfo.subs;
    var tail := subs[1..][1..];
    assert tail[0] == subs[2] && tail[1..] == [];
    assert FindNamedSub(tail[1..], t) == None;
    assert subs[1..][0] == subs[1];
    if t in {"teleport", "tp"} {
      assert !SubNamed(subs[0], t) && !SubNamed(subs[1], t) && SubNamed(subs[2], t);
      assert FindNamedSub(tail, t) == Some(0);
    }
  }

  // ---------------------------------------------------------------------------
  // The home table

  /** A home: its name, dimension id, position (the floored coordinates) and
      head rotation. */
  datatype Home = Home(name: string, dimension: string, x: int, y: int, z: int, rotation: (int, int))

  predicate HasHome(homes: seq<Home>, name: string) {
    exists k :: 0 <= k < |homes| && homes[k].name == name
  }

  const Exists := "home name already exists!"
  const NotFound := "home not found!"

  /** The player's homes, as loaded from the player's database. */
  class HomeTable {
    var homes: seq<Home>

    constructor(homes: seq<Home>)
      ensures this.homes == homes
    {
      this.homes := homes;
    }

    /** `home add`: throws when a home already has the name, and otherwise
        appends exactly one home. */
    method Add(h: Home) returns (r: Result<(), string>)
      modifies this
      ensures r.Err? <==> HasHome(old(homes), h.name)
      ensures r.Err? ==> r.error == Exists && homes == old(homes)
      ensures r.Ok? ==> homes == old(homes) + [h]
    {
      var i := 0;
      while i < |homes|
        invariant 0 <= i <= |homes|
        invariant forall k :: 0 <= k < i ==> homes[k].name != h.name
      {
        if homes[i].name == h.name {
          return Err(Exists);
        }
        i := i + 1;
      }
      homes := homes + [h];
      return Ok(());
    }

    /** `home delete`. */
    method Delete(name: string) returns (r: Result<(), string>)
      modifies this
      ensures r == (if HasHome(old(homes), name) then Ok(()) else Err(NotFound))
      ensures homes == if r.Ok? then Remove(old(homes), name) else old(homes)
    {
      var d := DeleteRule(homes, name);
      if d.Err? {
        return Err(d.error);
      }
      homes := d.value;
      return Ok(());
    }
  }

  /** `homes.filter(v => v[0] != name)`. */
  function Remove(homes: seq<Home>, name: string): (r: seq<Home>)
    ensures forall h :: h in r <==> h in homes && h.name != name
    ensures |r| <= |homes|
  {
    if homes == [] then []
    else if homes[0].name == name then Remove(homes[1..], name)
    else [homes[0]] + Remove(homes[1..], name)
  }

  /** Removing the homes with a name no home has keeps the table. */
  lemma {:induction false} RemoveAbsent(homes: seq<Home>, name: string)
    requires !HasHome(homes, name)
    ensures Remove(homes, name) == homes
  {
    if homes != [] {
      assert homes[0].name != name;
      assert !HasHome(homes[1..], name) by {
        forall k | 0 <= k < |homes[1..]| ensures homes[1..][k].name != name {
          assert homes[1..][k] == homes[k + 1];
        }
      }
      RemoveAbsent(homes[1..], name);
      assert homes == [homes[0]] + homes[1..];
    }
  }

  /** The delete rule: throws when no home has the name; otherwise every
      home with that name goes and the others stay, in order. */
  function DeleteRule(homes: seq<Home>, name: string): (r: Result<seq<Home>, string>)
    ensures r.Err? <==> !HasHome(homes, name)
    ensures r.Err? ==> r.error == NotFound
    ensures r.Ok? ==> r.value == Remove(homes, name) && |r.value| < |homes|
  {
    if !HasHome(homes, name) then Err(NotFound)
    else
      RemoveShrinks(homes, name);
      Ok(Remove(homes, name))
  }

  /** Removing a name some home has shortens the table. */
  lemma {:induction false} RemoveShrinks(homes: seq<Home>, name: string)
    requires HasHome(homes, name)
    ensures |Remove(homes, name)| < |homes|
  {
    if homes[0].name != name {
      var k :| 0 <= k < |homes| && homes[k].name == name;
      assert homes[1..][k - 1] == homes[k];
      RemoveShrinks(homes[1..], name);
    }
  }

  /** `home teleport`: the first home with the name, found by `find`;
      throws when there is none. */
  function Find(homes: seq<Home>, name: string): (r: Result<Home, string>)
    ensures r.Err? <==> !HasHome(homes, name)
    ensures r.Err? ==> r.error == NotFound
    ensures r.Ok? ==> exists k :: (0 <= k < |homes| && homes[k] == r.value && r.value.name == name
      && forall j :: 0 <= j < k ==> homes[j].name != name)
  {
    if homes == [] then Err(NotFound)
    else if homes[0].name == name then Ok(homes[0])
    else
      var r := Find(homes[1..], name);
      assert HasHome(homes, name) ==> HasHome(homes[1..], name) by {
        if HasHome(homes, name) {
          var k :| 0 <= k < |homes| && homes[k].name == name;
          assert homes[1..][k - 1] == homes[k];
        }
      }
      assert r.Ok? ==> exists k :: (0 <= k < |homes| && homes[k] == r.value && r.value.name == name
          && forall j :: 0 <= j < k ==> homes[j].name != name) by {
        if r.Ok? {
          var k :| 0 <= k < |homes[1..]| && homes[1..][k] == r.value && r.value.name == name
            && forall j :: 0 <= j < k ==> homes[1..][j].name != name;
          assert homes[k + 1] == r.value;
          assert forall j :: 1 <= j < k + 1 ==> homes[j] == homes[1..][j - 1];
        }
      }
      r
  }

  // ---------------------------------------------------------------------------
  // Listing

  /** One line of the listing: the name, the floored position and the
      dimension without its `minecraft:` namespace. */
  function HomeLine(h: Home): string {
    "- \U{00A7}b" + h.name + "\U{00A7}r (" +
    "\U{00A7}7" + Decimal(h.x) + "\U{00A7}r, " +
    "\U{00A7}7" + Decimal(h.y) + "\U{00A7}r, " +
    "\U{00A7}7" + Decimal(h.z) + "\U{00A7}r " +
    "at \U{00A7}7" + ReplaceFirst(h.dimension, "minecraft:", "") + "\U{00A7}r)"
  }

  /** The message for an empty table. */
  function NoHomes(prefix: string): string {
    "\U{00A7}eyou have no home set\n\U{00A7}euse \U{00A7}b" + prefix + "home add\U{00A7}r\U{00A7}e to set homes"
  }

  /** The first line of a non-empty listing. */
  function CountLine(n: nat): string {
    "\U{00A7}eyou have \U{00A7}6" + Decimal(n) + "\U{00A7}e homes:\U{00A7}r\n"
  }

  /** The lines of the homes, in table order, separated by line breaks. */
  function HomeLines(homes: seq<Home>): string {
    Join(seq(|homes|, k requires 0 <= k < |homes| => HomeLine(homes[k])), "\n")
  }

  /** A count line, whatever follows it, is never the empty-table message. */
  lemma CountLineFirst(n: nat, prefix: string, rest: string)
    ensures StartsWith(CountLine(n) + rest, CountLine(n))
    ensures CountLine(n) + rest != NoHomes(prefix)
  {
    var c := CountLine(n);
    assert (c + rest)[..|c|] == c;
    assert (c + rest)[11] == c[11] == '\U{00A7}';
    assert NoHomes(prefix)[11] == 'n';
  }

  /** `home` with no sub-command: the dedicated message exactly when the
      table is empty; else the count, then one line per home, in table order. */
  function ListMessage(homes: seq<Home>, prefix: string): (r: string)
    ensures homes == [] <==> r == NoHomes(prefix)
    ensures homes != [] ==> StartsWith(r, CountLine(|homes|))
  {
    if homes == [] then NoHomes(prefix)
    else
      CountLineFirst(|homes|, prefix, HomeLines(homes));
      CountLine(|homes|) + HomeLines(homes)
  }
}
