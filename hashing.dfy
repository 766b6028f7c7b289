/** `getHash`: the key by which onFlush recognises an entity scheduled for
    deletion twice — the class name and the identifier values joined by
    spaces — and the deletions onFlush keeps, the first of each hash. */
module Hashing {
  import opened Orm

  function DigitChar(d: nat): char
    requires d < 10
  {
    "0123456789"[d]
  }

  /** PHP's decimal rendering of a non-negative integer. */
  function NatToString(n: nat): (r: string)
    ensures |r| > 0 && ' ' !in r
    decreases n
  {
    if n < 10 then [DigitChar(n)] else NatToString(n / 10) + [DigitChar(n % 10)]
  }

  /** `(string) $i` for an integer. */
  function IntToString(i: int): (r: string)
    ensures |r| > 0 && ' ' !in r
  {
    if i < 0 then "-" + NatToString(-i) else NatToString(i)
  }

  /** An identifier value as `implode` renders it. */
  function IdString(v: IdValue): string {
    match v
    case IdInt(i) => IntToString(i)
    case IdStr(s) => s
  }

  function IdStrings(ids: seq<(string, IdValue)>): (r: seq<string>)
    ensures |r| == |ids| && forall k :: 0 <= k < |ids| ==> r[k] == IdString(ids[k].1)
  {
    seq(|ids|, k requires 0 <= k < |ids| => IdString(ids[k].1))
  }

  /** `implode(' ', $xs)` */
  function Join(xs: seq<string>): string
    decreases |xs|
  {
    if xs == [] then "" else if |xs| == 1 then xs[0] else xs[0] + " " + Join(xs[1..])
  }

  /** The hash of an entity of a class with the given identifier. */
  function HashOf(className: string, ids: seq<(string, IdValue)>): string {
    Join([className] + IdStrings(ids))
  }

  /** `getHash($uow, $entity)` */
  function GetHash(env: Env, e: EntityRef): string {
    HashOf(e.className, EntityIdentifier(env, e))
  }

  // ------------------------------------------------------------------
  // When the hash tells entities apart

  ghost predicate SpaceFree(xs: seq<string>) {
    forall k :: 0 <= k < |xs| ==> ' ' !in xs[k]
  }

  /** The position of the first space in a string (its length when there is none). */
  function FirstSpace(u: string): nat
    decreases |u|
  {
    if u == [] || u[0] == ' ' then 0 else 1 + FirstSpace(u[1..])
  }

  lemma {:induction false} FirstSpaceAfter(x: string, r: string)
    requires ' ' !in x
    ensures FirstSpace(x + " " + r) == |x|
    decreases |x|
  {
    if x != [] {
      assert (x + " " + r)[1..] == x[1..] + " " + r;
      FirstSpaceAfter(x[1..], r);
    }
  }

  /** A space separator after a space-free word is found at one place only. */
  lemma SplitAtSpace(x: string, r: string, y: string, s: string)
    requires ' ' !in x && ' ' !in y
    requires x + " " + r == y + " " + s
    ensures x == y && r == s
  {
    var u := x + " " + r;
    FirstSpaceAfter(x, r);
    FirstSpaceAfter(y, s);
    assert x == u[..|x|] == y;
    assert r == u[|x| + 1..] == s;
  }

  /** Joining non-empty lists of space-free words by spaces is injective. */
  lemma {:induction false} JoinInjective(xs: seq<string>, ys: seq<string>)
    requires |xs| > 0 && |ys| > 0 && SpaceFree(xs) && SpaceFree(ys)
    requires Join(xs) == Join(ys)
    ensures xs == ys
    decreases |xs| + |ys|
  {
    if |xs| > 1 && |ys| > 1 {
      SplitAtSpace(xs[0], Join(xs[1..]), ys[0], Join(ys[1..]));
      JoinInjective(xs[1..], ys[1..]);
      assert xs == [xs[0]] + xs[1..];
      assert ys == [ys[0]] + ys[1..];
    }
  }

  /** When class names and identifier strings contain no space, equal hashes
      mean the same class and the same rendered identifier. */
  lemma HashSeparatesSpaceFree(c1: string, ids1: seq<(string, IdValue)>, c2: string, ids2: seq<(string, IdValue)>)
    requires ' ' !in c1 && ' ' !in c2
    requires SpaceFree(IdStrings(ids1)) && SpaceFree(IdStrings(ids2))
    requires HashOf(c1, ids1) == HashOf(c2, ids2)
    ensures c1 == c2 && IdStrings(ids1) == IdStrings(ids2)
  {
    var xs := [c1] + IdStrings(ids1);
    var ys := [c2] + IdStrings(ids2);
    assert SpaceFree(xs) by {
      forall k | 0 <= k < |xs| ensures ' ' !in xs[k] {
        if k > 0 { assert xs[k] == IdStrings(ids1)[k - 1]; }
      }
    }
    assert SpaceFree(ys) by {
      forall k | 0 <= k < |ys| ensures ' ' !in ys[k] {
        if k > 0 { assert ys[k] == IdStrings(ids2)[k - 1]; }
      }
    }
    JoinInjective(xs, ys);
    assert IdStrings(ids1) == xs[1..] && IdStrings(ids2) == ys[1..];
  }

  /** Two different composite identifiers of one class whose string values
      contain spaces share a hash, so the second entity's deletion is not
      audited. */
  lemma CompositeIdentifiersCollide()
    ensures var ids1 := [("a", IdStr("1 2")), ("b", IdStr("3"))];
      var ids2 := [("a", IdStr("1")), ("b", IdStr("2 3"))];
      ids1 != ids2 && HashOf("Item", ids1) == HashOf("Item", ids2)
  {
    var ids1 := [("a", IdStr("1 2")), ("b", IdStr("3"))];
    var ids2 := [("a", IdStr("1")), ("b", IdStr("2 3"))];
    assert IdStrings(ids1) == ["1 2", "3"];
    assert IdStrings(ids2) == ["1", "2 3"];
    assert Join(["Item", "1 2", "3"]) == "Item" + " " + ("1 2" + " " + "3");
    assert Join(["Item", "1", "2 3"]) == "Item" + " " + ("1" + " " + "2 3");
  }

  /** An integer identifier and the string of its digits share a hash. */
  lemma IntegerAndStringIdentifiersCollide()
    ensures HashOf("Item", [("id", IdInt(7))]) == HashOf("Item", [("id", IdStr("7"))])
  {
    assert IntToString(7) == "7";
    assert IdStrings([("id", IdInt(7))]) == ["7"];
    assert IdStrings([("id", IdStr("7"))]) == ["7"];
  }

  // ------------------------------------------------------------------
  // The deletions onFlush audits

  function Hashes(env: Env, xs: seq<EntityRef>): set<string> {
    set k | 0 <= k < |xs| :: GetHash(env, xs[k])
  }

  /** The scheduled deletions onFlush keeps: each one whose hash no earlier
      deletion had. */
  function FirstByHash(env: Env, xs: seq<EntityRef>): seq<EntityRef>
    decreases |xs|
  {
    if xs == [] then []
    else
      var n := |xs| - 1;
      if GetHash(env, xs[n]) in Hashes(env, xs[..n]) then FirstByHash(env, xs[..n])
      else FirstByHash(env, xs[..n]) + [xs[n]]
  }

  lemma HashesSnoc(env: Env, xs: seq<EntityRef>, x: EntityRef)
    ensures Hashes(env, xs + [x]) == Hashes(env, xs) + {GetHash(env, x)}
  {
    var ys := xs + [x];
    forall h | h in Hashes(env, ys) ensures h in Hashes(env, xs) + {GetHash(env, x)} {
      var k :| 0 <= k < |ys| && GetHash(env, ys[k]) == h;
      if k < |xs| { assert ys[k] == xs[k]; }
    }
    forall h | h in Hashes(env, xs) ensures h in Hashes(env, ys) {
      var k :| 0 <= k < |xs| && GetHash(env, xs[k]) == h;
      assert ys[k] == xs[k];
    }
    assert ys[|xs|] == x;
  }

  /** One more scheduled deletion: its hash joins the hashes seen, and it
      is kept exactly when that hash is new. */
  lemma FirstByHashStep(env: Env, xs: seq<EntityRef>, i: nat)
    requires i < |xs|
    ensures Hashes(env, xs[..i + 1]) == Hashes(env, xs[..i]) + {GetHash(env, xs[i])}
    ensures FirstByHash(env, xs[..i + 1]) ==
      if GetHash(env, xs[i]) in Hashes(env, xs[..i]) then FirstByHash(env, xs[..i])
      else FirstByHash(env, xs[..i]) + [xs[i]]
  {
    assert xs[..i + 1][..i] == xs[..i];
    assert xs[..i + 1] == xs[..i] + [xs[i]];
    HashesSnoc(env, xs[..i], xs[i]);
  }

  /** The kept deletions have pairwise different hashes and between them
      cover every hash of the scheduled deletions. */
  lemma {:induction false} FirstByHashSpec(env: Env, xs: seq<EntityRef>)
    ensures var kept := FirstByHash(env, xs);
      && (forall i, j :: 0 <= i < j < |kept| ==> GetHash(env, kept[i]) != GetHash(env, kept[j]))
      && Hashes(env, kept) == Hashes(env, xs)
  {
    if xs != [] {
      var n := |xs| - 1;
      var p := xs[..n];
      assert xs == p + [xs[n]];
      FirstByHashSpec(env, p);
      HashesSnoc(env, p, xs[n]);
      var kept := FirstByHash(env, p);
      if GetHash(env, xs[n]) !in Hashes(env, p) {
        HashesSnoc(env, kept, xs[n]);
        var kept' := kept + [xs[n]];
        forall i, j | 0 <= i < j < |kept'| ensures GetHash(env, kept'[i]) != GetHash(env, kept'[j]) {
          if j == |kept| {
            assert GetHash(env, kept[i]) in Hashes(env, kept);
          } else {
            assert kept'[i] == kept[i] && kept'[j] == kept[j];
          }
        }
      }
    }
  }

  /** `x` occurs in `xs` at a position no earlier entry shares its hash with. */
  ghost predicate FirstSeen(env: Env, xs: seq<EntityRef>, x: EntityRef) {
    exists i :: 0 <= i < |xs| && xs[i] == x && GetHash(env, x) !in Hashes(env, xs[..i])
  }

  lemma FirstSeenSnoc(env: Env, xs: seq<EntityRef>, x: EntityRef)
    requires xs != []
    ensures FirstSeen(env, xs, x) <==>
      FirstSeen(env, xs[..|xs| - 1], x) || (x == xs[|xs| - 1] && GetHash(env, x) !in Hashes(env, xs[..|xs| - 1]))
  {
    var n := |xs| - 1;
    var p := xs[..n];
    if FirstSeen(env, xs, x) {
      var i :| 0 <= i < |xs| && xs[i] == x && GetHash(env, x) !in Hashes(env, xs[..i]);
      if i < n {
        assert p[i] == xs[i] && p[..i] == xs[..i];
      }
    }
    if FirstSeen(env, p, x) {
      var i :| 0 <= i < |p| && p[i] == x && GetHash(env, x) !in Hashes(env, p[..i]);
      assert xs[i] == p[i] && xs[..i] == p[..i];
    }
  }

  /** A deletion is kept exactly when it is scheduled at a position no
      earlier scheduled deletion shares its hash with. */
  lemma {:induction false} FirstByHashMembers(env: Env, xs: seq<EntityRef>, x: EntityRef)
    ensures x in FirstByHash(env, xs) <==> FirstSeen(env, xs, x)
  {
    if xs != [] {
      FirstByHashMembers(env, xs[..|xs| - 1], x);
      FirstSeenSnoc(env, xs, x);
    }
  }

  /** Processing more deletions only appends to those kept so far. */
  lemma {:induction false} FirstByHashPrefix(env: Env, xs: seq<EntityRef>, k: nat)
    requires k <= |xs|
    ensures |FirstByHash(env, xs[..k])| <= |FirstByHash(env, xs)|
    ensures FirstByHash(env, xs)[..|FirstByHash(env, xs[..k])|] == FirstByHash(env, xs[..k])
    decreases |xs|
  {
    if k == |xs| {
      assert xs[..k] == xs;
    } else {
      var n := |xs| - 1;
      assert xs[..n][..k] == xs[..k];
      FirstByHashPrefix(env, xs[..n], k);
    }
  }

  /** Every kept deletion is one of the scheduled deletions. */
  lemma {:induction false} FirstByHashSubset(env: Env, xs: seq<EntityRef>)
    ensures forall k :: 0 <= k < |FirstByHash(env, xs)| ==> FirstByHash(env, xs)[k] in xs
  {
    if xs != [] {
      var n := |xs| - 1;
      FirstByHashSubset(env, xs[..n]);
      forall k | 0 <= k < |FirstByHash(env, xs)| ensures FirstByHash(env, xs)[k] in xs {
        if k < |FirstByHash(env, xs[..n])| {
          assert FirstByHash(env, xs)[k] == FirstByHash(env, xs[..n])[k];
          assert FirstByHash(env, xs[..n])[k] in xs[..n];
        }
      }
    }
  }

  /** A deletion scheduled again is not processed again. */
  lemma RescheduledDeletionIgnored(env: Env, xs: seq<EntityRef>, x: EntityRef)
    requires x in xs
    ensures FirstByHash(env, xs + [x]) == FirstByHash(env, xs)
  {
    var i :| 0 <= i < |xs| && xs[i] == x;
    assert (xs + [x])[..|xs|] == xs;
    assert GetHash(env, x) in Hashes(env, xs);
  }
}
