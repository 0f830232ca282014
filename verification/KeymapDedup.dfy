/** Keysyms that several keys give, resolved so that searching by column and by keycode agree. */
module KeymapDedup {
  import opened BridgeTypes

  const SYMS_PER := 4

  // --- the table: four keysyms a key, 0 for none ---

  predicate IsTable(s: seq<u32>) {
    |s| % SYMS_PER == 0
  }

  /** Key `i` gives a keysym at some level. */
  predicate On(s: seq<u32>, sym: u32, i: nat)
    requires IsTable(s)
  {
    4 * i < |s| && (s[4 * i] == sym || s[4 * i + 1] == sym || s[4 * i + 2] == sym || s[4 * i + 3] == sym)
  }

  /** Key `i` gives it with Shift and without. */
  predicate BothAt(s: seq<u32>, sym: u32, i: nat)
    requires IsTable(s)
  {
    4 * i < |s| && s[4 * i] == sym && s[4 * i + 1] == sym
  }

  ghost predicate Both(s: seq<u32>, sym: u32)
    requires IsTable(s)
  {
    exists i: nat :: BothAt(s, sym, i)
  }

  ghost predicate Lowest(s: seq<u32>, sym: u32, i: nat)
    requires IsTable(s)
  {
    On(s, sym, i) && forall j: nat :: On(s, sym, j) ==> i <= j
  }

  /** Whether a position keeps its keysym. */
  ghost predicate Kept(s: seq<u32>, p: nat)
    requires IsTable(s) && p < |s|
  {
    s[p] == 0 || Both(s, s[p]) || Lowest(s, s[p], p / SYMS_PER)
  }

  ghost function KeptAt(s: seq<u32>, p: nat): u32
    requires IsTable(s) && p < |s|
  {
    if Kept(s, p) then s[p] else 0
  }

  ghost function Deduped(s: seq<u32>): (d: seq<u32>)
    requires IsTable(s)
    ensures IsTable(d) && |d| == |s| && forall p :: 0 <= p < |s| ==> d[p] == KeptAt(s, p)
  {
    seq(|s|, p requires 0 <= p < |s| => KeptAt(s, p))
  }

  // --- the two passes ---

  /** What has been seen of a keysym in the first `p` positions. */
  ghost predicate Seen(s: seq<u32>, sym: u32, p: nat)
    requires IsTable(s)
  {
    exists q: nat :: q < p && q < |s| && s[q] == sym
  }

  ghost predicate BothSeen(s: seq<u32>, sym: u32, p: nat)
    requires IsTable(s)
  {
    exists q: nat :: q < p && q < |s| && s[q] == sym && BothAt(s, sym, q / SYMS_PER)
  }

  ghost predicate Owned(s: seq<u32>, sym: u32, p: nat, owner: map<u32, Option<nat>>)
    requires IsTable(s)
  {
    && (sym in owner <==> sym != 0 && Seen(s, sym, p))
    && (sym in owner ==> (owner[sym].None? <==> BothSeen(s, sym, p)))
    && (sym in owner && owner[sym].Some? ==>
          && On(s, sym, owner[sym].value)
          && forall q: nat :: q < p && q < |s| && s[q] == sym ==> owner[sym].value <= q / SYMS_PER)
  }

  ghost predicate Owns(s: seq<u32>, p: nat, owner: map<u32, Option<nat>>)
    requires IsTable(s)
  {
    forall sym: u32 :: Owned(s, sym, p, owner)
  }

  /** The owner table once one more position is read. */
  function Noted(owner: map<u32, Option<nat>>, sym: u32, i: nat, both: bool): map<u32, Option<nat>> {
    if sym == 0 then owner
    else
      var entered := if sym in owner then owner else owner[sym := Some(i)];
      if both then entered[sym := None] else entered
  }

  lemma NotingKeeps(s: seq<u32>, p: nat, owner: map<u32, Option<nat>>)
    requires IsTable(s) && p < |s| && Owns(s, p, owner)
    ensures Owns(s, p + 1, Noted(owner, s[p], p / SYMS_PER, BothAt(s, s[p], p / SYMS_PER)))
  {
    var after := Noted(owner, s[p], p / SYMS_PER, BothAt(s, s[p], p / SYMS_PER));
    var n := p + 1;
    forall sym: u32 ensures Owned(s, sym, n, after) {
      assert Owned(s, sym, p, owner);
      SeenGrows(s, sym, p);
      hide BothAt, Seen, BothSeen;
      if sym == s[p] {
        assert On(s, sym, p / SYMS_PER);
      }
    }
  }

  lemma SeenGrows(s: seq<u32>, sym: u32, p: nat)
    requires IsTable(s) && p < |s|
    ensures Seen(s, sym, p + 1) <==> Seen(s, sym, p) || s[p] == sym
    ensures BothSeen(s, sym, p + 1) <==> BothSeen(s, sym, p) || (s[p] == sym && BothAt(s, sym, p / SYMS_PER))
    ensures BothSeen(s, sym, p) ==> Seen(s, sym, p)
    ensures s[p] == sym && BothSeen(s, sym, p) ==> Seen(s, sym, p)
  {
  }

  /** After the whole table is read, its owner says which positions of a keysym stay. */
  lemma OwnerDecides(s: seq<u32>, owner: map<u32, Option<nat>>, p: nat)
    requires IsTable(s) && Owns(s, |s|, owner) && p < |s| && s[p] != 0
    ensures s[p] in owner
    ensures Kept(s, p) <==> !(owner[s[p]].Some? && owner[s[p]].value != p / SYMS_PER)
  {
    var sym := s[p];
    assert Owned(s, sym, |s|, owner);
    assert Seen(s, sym, |s|);
    assert BothSeen(s, sym, |s|) <==> Both(s, sym) by {
      if Both(s, sym) {
        var i: nat :| BothAt(s, sym, i);
        assert s[4 * i] == sym && (4 * i) / SYMS_PER == i;
      }
    }
    if owner[sym].Some? {
      LowestIsFirst(s, sym, owner[sym].value);
      assert On(s, sym, p / SYMS_PER);
    }
  }

  lemma LowestIsFirst(s: seq<u32>, sym: u32, k: nat)
    requires IsTable(s) && On(s, sym, k)
    requires forall q: nat :: q < |s| && s[q] == sym ==> k <= q / SYMS_PER
    ensures Lowest(s, sym, k)
  {
    forall j: nat | On(s, sym, j) ensures k <= j {
      PlaceOf(s, sym, j);
    }
  }

  /** A key that gives a keysym has a position that holds it. */
  lemma PlaceOf(s: seq<u32>, sym: u32, j: nat)
    requires IsTable(s) && On(s, sym, j)
    ensures exists q: nat :: q < |s| && s[q] == sym && q / SYMS_PER == j
  {
    var q: nat := if s[4 * j] == sym then 4 * j else if s[4 * j + 1] == sym then 4 * j + 1
                  else if s[4 * j + 2] == sym then 4 * j + 2 else 4 * j + 3;
    assert q / SYMS_PER == j;
  }

  /** Blanks every keysym that another, lower key gives, unless some key gives it at both Shift levels. */
  method Dedup(syms: array<u32>)
    requires IsTable(syms[..])
    modifies syms
    ensures syms[..] == Deduped(old(syms[..]))
  {
    hide Owns, Kept, BothAt, On, Lowest;
    ghost var s := syms[..];
    var owner: map<u32, Option<nat>> := map[];
    NothingOwned(s);
    for i := 0 to syms.Length / SYMS_PER
      invariant syms[..] == s && Owns(s, SYMS_PER * i, owner)
    {
      for c := 0 to SYMS_PER
        invariant syms[..] == s && Owns(s, SYMS_PER * i + c, owner)
      {
        var sym := syms[SYMS_PER * i + c];
        NotingKeeps(s, SYMS_PER * i + c, owner);
        BothIs(s, sym, i);
        var both := syms[SYMS_PER * i] == sym && syms[SYMS_PER * i + 1] == sym;
        owner := Noted(owner, sym, i, both);
      }
    }
    for i := 0 to syms.Length / SYMS_PER
      invariant forall q :: 0 <= q < SYMS_PER * i ==> syms[q] == KeptAt(s, q)
      invariant forall q :: SYMS_PER * i <= q < |s| ==> syms[q] == s[q]
    {
      for c := 0 to SYMS_PER
        invariant forall q :: 0 <= q < SYMS_PER * i + c ==> syms[q] == KeptAt(s, q)
        invariant forall q :: SYMS_PER * i + c <= q < |s| ==> syms[q] == s[q]
      {
        var p := SYMS_PER * i + c;
        if syms[p] != 0 {
          OwnerDecides(s, owner, p);
          if owner[syms[p]].Some? && owner[syms[p]].value != i {
            syms[p] := 0;
          }
        } else {
          BlanksAreKept(s, p);
        }
      }
    }
  }

  lemma NothingOwned(s: seq<u32>)
    requires IsTable(s)
    ensures Owns(s, 0, map[])
  {
  }

  lemma BothIs(s: seq<u32>, sym: u32, i: nat)
    requires IsTable(s) && 4 * i < |s|
    ensures BothAt(s, sym, i) <==> s[4 * i] == sym && s[4 * i + 1] == sym
  {
  }

  lemma BlanksAreKept(s: seq<u32>, p: nat)
    requires IsTable(s) && p < |s| && s[p] == 0
    ensures Kept(s, p)
  {
  }

  // --- what it leaves ---

  lemma {:induction false} LowestExists(s: seq<u32>, sym: u32, j: nat)
    requires IsTable(s) && On(s, sym, j)
    ensures exists i: nat :: Lowest(s, sym, i)
    decreases j
  {
    if !Lowest(s, sym, j) {
      var k: nat :| On(s, sym, k) && k < j;
      LowestExists(s, sym, k);
    }
  }

  /** A key still gives a keysym exactly if it did and either some key gives it at both Shift levels or it is the
      lowest that did; and then it gives it at the same levels. */
  lemma KeysThatStay(s: seq<u32>, sym: u32, i: nat)
    requires IsTable(s) && sym != 0
    ensures On(Deduped(s), sym, i) <==> On(s, sym, i) && (Both(s, sym) || Lowest(s, sym, i))
    ensures On(Deduped(s), sym, i) ==> forall p :: 4 * i <= p < 4 * i + 4 ==> (Deduped(s)[p] == sym <==> s[p] == sym)
  {
    hide Both, Lowest;
    if 4 * i < |s| {
      forall p | 4 * i <= p < 4 * i + 4
        ensures Deduped(s)[p] == sym <==> s[p] == sym && (Both(s, sym) || Lowest(s, sym, i))
      {
        assert p / SYMS_PER == i;
      }
    }
  }

  /** No keysym disappears. */
  lemma NoKeysymDisappears(s: seq<u32>, sym: u32, j: nat)
    requires IsTable(s) && sym != 0 && On(s, sym, j)
    ensures exists i: nat :: On(Deduped(s), sym, i)
  {
    LowestExists(s, sym, j);
    var i: nat :| Lowest(s, sym, i);
    KeysThatStay(s, sym, i);
  }

  lemma BothIsKept(s: seq<u32>, sym: u32)
    requires IsTable(s) && sym != 0
    ensures Both(Deduped(s), sym) <==> Both(s, sym)
    ensures Both(s, sym) ==> forall p :: 0 <= p < |s| ==> (Deduped(s)[p] == sym <==> s[p] == sym)
  {
    if Both(Deduped(s), sym) {
      var i: nat :| BothAt(Deduped(s), sym, i);
      assert BothAt(s, sym, i);
    }
    if Both(s, sym) {
      var i: nat :| BothAt(s, sym, i);
      assert BothAt(Deduped(s), sym, i);
    }
  }

  lemma LowestIsKept(s: seq<u32>, sym: u32, i: nat)
    requires IsTable(s) && sym != 0 && Lowest(s, sym, i)
    ensures Lowest(Deduped(s), sym, i)
  {
    hide Both;
    KeysThatStay(s, sym, i);
    forall j: nat | On(Deduped(s), sym, j) ensures i <= j {
      KeysThatStay(s, sym, j);
    }
  }

  /** Doing it twice changes nothing more. */
  lemma DedupIsIdempotent(s: seq<u32>)
    requires IsTable(s)
    ensures Deduped(Deduped(s)) == Deduped(s)
  {
    var d := Deduped(s);
    forall p | 0 <= p < |s| ensures Deduped(d)[p] == d[p] {
      if d[p] != 0 {
        assert Kept(s, p) && d[p] == s[p];
        BothIsKept(s, s[p]);
        if Lowest(s, s[p], p / SYMS_PER) {
          LowestIsKept(s, s[p], p / SYMS_PER);
        }
      }
    }
  }

  // --- the clients' searches ---

  predicate Gives(s: seq<u32>, sym: u32, i: nat, c: nat) {
    4 * i + c < |s| && s[4 * i + c] == sym
  }

  /** Xlib's search: the first column that has the keysym, and in it the lowest key. */
  ghost predicate FoundInColumn(s: seq<u32>, sym: u32, c: nat, i: nat) {
    && c < SYMS_PER && Gives(s, sym, i, c)
    && (forall j: nat, b: nat :: b < c ==> !Gives(s, sym, j, b))
    && (forall j: nat :: j < i ==> !Gives(s, sym, j, c))
  }

  lemma GivesIsOn(s: seq<u32>, sym: u32, i: nat)
    requires IsTable(s)
    ensures On(s, sym, i) <==> Gives(s, sym, i, 0) || Gives(s, sym, i, 1) || Gives(s, sym, i, 2) || Gives(s, sym, i, 3)
  {
  }

  /** For a keysym no key gives at both Shift levels, searching by column finds the lowest key that had it, and
      so does searching by key: there is no other left. */
  lemma SearchesAgree(s: seq<u32>, sym: u32, c: nat, i: nat)
    requires IsTable(s) && sym != 0 && !Both(s, sym) && FoundInColumn(Deduped(s), sym, c, i)
    ensures Lowest(s, sym, i) && Lowest(Deduped(s), sym, i)
    ensures forall j: nat :: On(Deduped(s), sym, j) <==> j == i
  {
    hide Both, BothAt, Lowest, FoundInColumn;
    FoundIsOn(Deduped(s), sym, c, i);
    KeysThatStay(s, sym, i);
    LowestIsKept(s, sym, i);
    forall j: nat ensures On(Deduped(s), sym, j) <==> j == i {
      KeysThatStay(s, sym, j);
      OneLowest(s, sym, i, j);
    }
  }

  lemma FoundIsOn(s: seq<u32>, sym: u32, c: nat, i: nat)
    requires IsTable(s) && FoundInColumn(s, sym, c, i)
    ensures On(s, sym, i)
  {
  }

  lemma OneLowest(s: seq<u32>, sym: u32, i: nat, j: nat)
    requires IsTable(s) && Lowest(s, sym, i)
    ensures Lowest(s, sym, j) <==> i == j
  {
  }

  /** The search by column finds some key for every keysym the table had. */
  lemma SearchFinds(s: seq<u32>, sym: u32, j: nat)
    requires IsTable(s) && sym != 0 && On(s, sym, j)
    ensures exists c: nat, i: nat :: FoundInColumn(Deduped(s), sym, c, i)
  {
    var d := Deduped(s);
    NoKeysymDisappears(s, sym, j);
    var k: nat :| On(d, sym, k);
    GivesIsOn(d, sym, k);
    if b: nat, i: nat :| b == 0 && Gives(d, sym, i, b) {
      LowestInColumn(d, sym, b, i);
    } else if b: nat, i: nat :| b == 1 && Gives(d, sym, i, b) {
      LowestInColumn(d, sym, b, i);
    } else if b: nat, i: nat :| b == 2 && Gives(d, sym, i, b) {
      LowestInColumn(d, sym, b, i);
    } else {
      LowestInColumn(d, sym, 3, k);
    }
  }

  lemma {:induction false} LowestInColumn(s: seq<u32>, sym: u32, c: nat, i: nat)
    requires c < SYMS_PER && Gives(s, sym, i, c) && forall j: nat, b: nat :: b < c ==> !Gives(s, sym, j, b)
    ensures exists k: nat :: FoundInColumn(s, sym, c, k)
    decreases i
  {
    if j: nat :| j < i && Gives(s, sym, j, c) {
      LowestInColumn(s, sym, c, j);
    } else {
      assert FoundInColumn(s, sym, c, i);
    }
  }

  /** For one that some key gives at both levels, the search finds such a key exactly if no lower key has it
      unshifted alone: in the first column, the lowest key that has it is a key of both levels. */
  lemma SearchFindsBothIff(s: seq<u32>, sym: u32, c: nat, i: nat)
    requires IsTable(s) && sym != 0 && Both(s, sym) && FoundInColumn(Deduped(s), sym, c, i)
    ensures c == 0 && Gives(s, sym, i, 0) && forall j: nat :: j < i ==> !Gives(s, sym, j, 0)
    ensures BothAt(s, sym, i) <==> forall j: nat :: Gives(s, sym, j, 0) && !Gives(s, sym, j, 1) ==>
              exists k: nat :: k < j && BothAt(s, sym, k)
  {
    hide Deduped, Both;
    SameGives(s, sym, c, i);
    FirstColumnHasIt(s, sym, c, i);
    BothGives(s, sym, i);
    forall j: nat ensures BothAt(s, sym, j) <==> Gives(s, sym, j, 0) && Gives(s, sym, j, 1) {
      BothGives(s, sym, j);
    }
    hide BothAt, Gives, FoundInColumn;
    if BothAt(s, sym, i) {
      forall j: nat | Gives(s, sym, j, 0) && !Gives(s, sym, j, 1) ensures exists k: nat :: k < j && BothAt(s, sym, k) {
        assert i < j;
      }
    }
  }

  lemma BothGives(s: seq<u32>, sym: u32, j: nat)
    requires IsTable(s)
    ensures BothAt(s, sym, j) <==> Gives(s, sym, j, 0) && Gives(s, sym, j, 1)
  {
  }

  /** A keysym given at both levels is looked up as if nothing had been blanked. */
  lemma SameGives(s: seq<u32>, sym: u32, c: nat, i: nat)
    requires IsTable(s) && sym != 0 && Both(s, sym)
    ensures FoundInColumn(Deduped(s), sym, c, i) <==> FoundInColumn(s, sym, c, i)
  {
    hide Both;
    BothIsKept(s, sym);
    var d := Deduped(s);
    hide Deduped;
    forall j: nat, b: nat ensures Gives(d, sym, j, b) <==> Gives(s, sym, j, b) {
    }
    hide Gives;
  }

  lemma FirstColumnHasIt(s: seq<u32>, sym: u32, c: nat, i: nat)
    requires IsTable(s) && Both(s, sym) && FoundInColumn(s, sym, c, i)
    ensures c == 0 && Gives(s, sym, i, 0) && forall j: nat :: j < i ==> !Gives(s, sym, j, 0)
  {
    var k: nat :| BothAt(s, sym, k);
    assert Gives(s, sym, k, 0);
    hide Gives, BothAt;
  }

  /** It need not: a lower key that has the keysym unshifted is found first. */
  lemma SearchCanMissBoth()
    ensures var s: seq<u32> := [97, 98, 0, 0, 97, 97, 0, 0];
            Both(s, 97) && FoundInColumn(Deduped(s), 97, 0, 0) && !BothAt(s, 97, 0)
  {
    var s: seq<u32> := [97, 98, 0, 0, 97, 97, 0, 0];
    assert BothAt(s, 97, 1);
    BothIsKept(s, 97);
  }
}
