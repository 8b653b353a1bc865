/** The permissions plugin (src/catalyst/plugins/permissions/app.ts): a
    player holds permission `p` when it carries the tag `permission.p`. */
module Permissions {
  import opened Base
  import opened JsString

  const Prefix := "permission."
  const NoPermission := "You have no permission!"

  /** A player, as far as its tags go. The host keeps tags as a set: adding a
      tag the player has, or removing one it lacks, changes nothing. */
  class Player {
    var tags: seq<string>

    constructor(tags: seq<string>)
      ensures this.tags == tags
    {
      this.tags := tags;
    }

    /** `addTag`. */
    method AddTag(tag: string)
      modifies this
      ensures tags == if tag in old(tags) then old(tags) else old(tags) + [tag]
    {
      if tag !in tags {
        tags := tags + [tag];
      }
    }

    /** `removeTag`. */
    method RemoveTag(tag: string)
      modifies this
      ensures tags == Without(old(tags), tag)
    {
      tags := Without(tags, tag);
    }
  }

  /** `tags` with every copy of `tag` removed, the others kept in order. */
  function Without(tags: seq<string>, tag: string): (r: seq<string>)
    ensures tag !in r
    ensures forall t :: t in r <==> t in tags && t != tag
  {
    if tags == [] then []
    else if tags[0] == tag then Without(tags[1..], tag)
    else [tags[0]] + Without(tags[1..], tag)
  }

  /** The permissions the tags grant, in tag order: each tag that starts with
      `permission.`, without that prefix. */
  function Permissions(tags: seq<string>): (r: seq<string>)
    ensures |r| <= |tags|
  {
    if tags == [] then []
    else
      var rest := Permissions(tags[..|tags| - 1]);
      var t := tags[|tags| - 1];
      if StartsWith(t, Prefix) then rest + [t[|Prefix|..]] else rest
  }

  /** A permission is granted exactly when its tag is present. */
  lemma {:induction false} PermissionTag(tags: seq<string>, p: string)
    ensures p in Permissions(tags) <==> Prefix + p in tags
    decreases |tags|
  {
    if tags != [] {
      var init := tags[..|tags| - 1];
      var t := tags[|tags| - 1];
      PermissionTag(init, p);
      assert tags == init + [t];
      if StartsWith(t, Prefix) {
        assert t == Prefix + t[|Prefix|..];
        assert t[|Prefix|..] == p <==> t == Prefix + p by {
          if t == Prefix + p {
            assert (Prefix + p)[|Prefix|..] == p;
          }
        }
      } else {
        assert t != Prefix + p by {
          assert (Prefix + p)[..|Prefix|] == Prefix;
        }
      }
    }
  }

  /** `getPermissions`: the loop over the player's tags. */
  method GetPermissions(plr: Player) returns (result: seq<string>)
    ensures result == Permissions(plr.tags)
  {
    result := [];
    var tags := plr.tags;
    var i := 0;
    while i < |tags|
      invariant 0 <= i <= |tags|
      invariant result == Permissions(tags[..i])
    {
      assert tags[..i + 1][..i] == tags[..i];
      var v := tags[i];
      if StartsWith(v, Prefix) {
        result := result + [v[|Prefix|..]];
      }
      i := i + 1;
    }
    assert tags[..|tags|] == tags;
  }

  /** `hasPermission`. */
  function HasPermission(tags: seq<string>, perm: string): (r: bool)
    ensures r <==> Prefix + perm in tags
  {
    PermissionTag(tags, perm);
    perm in Permissions(tags)
  }

  /** `assertHasPermission`: throws unless one of the permissions is held. */
  function AssertHasPermission(tags: seq<string>, perms: seq<string>): (r: Result<(), string>)
    ensures r.Ok? <==> exists k :: 0 <= k < |perms| && Prefix + perms[k] in tags
    ensures r.Err? ==> r.error == NoPermission
    ensures perms == [] ==> r.Err?
  {
    if exists k :: 0 <= k < |perms| && HasPermission(tags, perms[k]) then Ok(()) else Err(NoPermission)
  }

  /** `grantPermission`: afterwards the permission is held, and the others
      are as before. */
  method GrantPermission(plr: Player, perm: string)
    modifies plr
    ensures HasPermission(plr.tags, perm)
    ensures forall q :: q != perm ==> (HasPermission(plr.tags, q) <==> HasPermission(old(plr.tags), q))
  {
    plr.AddTag(Prefix + perm);
    forall q | q != perm ensures (HasPermission(plr.tags, q) <==> HasPermission(old(plr.tags), q)) {
      PrefixInjective(q, perm);
    }
  }

  /** `revokePermission`: afterwards the permission is not held, and the
      others are as before. */
  method RevokePermission(plr: Player, perm: string)
    modifies plr
    ensures !HasPermission(plr.tags, perm)
    ensures forall q :: q != perm ==> (HasPermission(plr.tags, q) <==> HasPermission(old(plr.tags), q))
  {
    plr.RemoveTag(Prefix + perm);
    forall q | q != perm ensures (HasPermission(plr.tags, q) <==> HasPermission(old(plr.tags), q)) {
      PrefixInjective(q, perm);
    }
  }

  lemma PrefixInjective(p: string, q: string)
    requires p != q
    ensures Prefix + p != Prefix + q
  {
    assert (Prefix + p)[|Prefix|..] == p;
    assert (Prefix + q)[|Prefix|..] == q;
  }
}
