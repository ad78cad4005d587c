/** The FSM-GA LED identifiers: the `FSMGALED` enumeration, the id-to-name
    table built from it and the list of all LED ids. */
module Leds {

  /** The twelve LEDs of the panel, in declaration order. */
  datatype FsmGaLed = Hdg | Trk | Nav | Apr | Alt | Lvl | Vnav | Ias | Ap | Fd | Yd | Vs

  /** The member declared at position i. */
  function MemberAt(i: nat): FsmGaLed
    requires i < 12
  {
    if i == 0 then Hdg else if i == 1 then Trk else if i == 2 then Nav
    else if i == 3 then Apr else if i == 4 then Alt else if i == 5 then Lvl
    else if i == 6 then Vnav else if i == 7 then Ias else if i == 8 then Ap
    else if i == 9 then Fd else if i == 10 then Yd else Vs
  }

  /** Every member of the enumeration, in declaration (and iteration) order. */
  const MEMBERS: seq<FsmGaLed> := seq(12, i requires 0 <= i < 12 => MemberAt(i))

  /** The value given to HDG; every later member takes the previous value plus one. */
  const HDG_ID := 10

  /** Position of a member in the declaration. */
  function Ordinal(led: FsmGaLed): nat
  {
    match led
    case Hdg => 0
    case Trk => 1
    case Nav => 2
    case Apr => 3
    case Alt => 4
    case Lvl => 5
    case Vnav => 6
    case Ias => 7
    case Ap => 8
    case Fd => 9
    case Yd => 10
    case Vs => 11
  }

  /** The integer value of a member: HDG is 10 and `auto()` counts up from there. */
  function Value(led: FsmGaLed): int
  {
    HDG_ID + Ordinal(led)
  }

  /** The member's name, as Python's `x.name` gives it. */
  function Name(led: FsmGaLed): string
  {
    match led
    case Hdg => "HDG"
    case Trk => "TRK"
    case Nav => "NAV"
    case Apr => "APR"
    case Alt => "ALT"
    case Lvl => "LVL"
    case Vnav => "VNAV"
    case Ias => "IAS"
    case Ap => "AP"
    case Fd => "FD"
    case Yd => "YD"
    case Vs => "VS"
  }

  /** Every member is listed once in MEMBERS, at the position of its ordinal. */
  lemma MembersComplete(led: FsmGaLed)
    ensures Ordinal(led) < |MEMBERS| && MEMBERS[Ordinal(led)] == led
  {
  }

  /** `LOOKUP_LED_BY_ID`: a dictionary from value to name, kept as its list of
      entries in insertion order (the order in which a Python dict iterates). */
  function LookupLedById(): seq<(int, string)>
  {
    seq(|MEMBERS|, i requires 0 <= i < |MEMBERS| => (Value(MEMBERS[i]), Name(MEMBERS[i])))
  }

  /** The keys of `LOOKUP_LED_BY_ID`, in iteration order. */
  function LookupKeys(): seq<int>
  {
    seq(|LookupLedById()|, i requires 0 <= i < |LookupLedById()| => LookupLedById()[i].0)
  }

  /** `FSMGADevice.ALL_LEDS`: `range(HDG, HDG + len(FSMGALED))`. */
  function AllLeds(): seq<int>
  {
    seq(|MEMBERS|, i requires 0 <= i < |MEMBERS| => Value(Hdg) + i)
  }

  /** The enumeration is consecutive from 10: the i-th member has value 10 + i. */
  lemma MemberValues()
    ensures |MEMBERS| == 12
    ensures forall i :: 0 <= i < |MEMBERS| ==> Value(MEMBERS[i]) == 10 + i
  {
    forall i | 0 <= i < |MEMBERS| ensures Value(MEMBERS[i]) == 10 + i {
      assert Ordinal(MEMBERS[i]) == i by {
        assert i == 0 || i == 1 || i == 2 || i == 3 || i == 4 || i == 5 ||
               i == 6 || i == 7 || i == 8 || i == 9 || i == 10 || i == 11;
      }
    }
  }

  /** The id range: `ALL_LEDS` is exactly 10, 11, ..., 21, the keys of
      `LOOKUP_LED_BY_ID` are the same ids in the same order, and the key set
      of the table is exactly the integers 10..21. */
  lemma IdRange()
    ensures |AllLeds()| == 12 && AllLeds() == LookupKeys()
    ensures forall i :: 0 <= i < |AllLeds()| ==> AllLeds()[i] == 10 + i
    ensures forall k :: k in LookupKeys() <==> 10 <= k <= 21
  {
    MemberValues();
    assert Value(Hdg) == 10;
    assert |LookupKeys()| == 12;
    forall i | 0 <= i < 12 ensures AllLeds()[i] == LookupKeys()[i] {
      assert LookupKeys()[i] == Value(MEMBERS[i]);
    }
    forall k | 10 <= k <= 21 ensures k in LookupKeys() {
      assert LookupKeys()[k - 10] == k;
    }
  }

  /** The table names each id after its member: 13 is "APR", 14 is "ALT", and so on. */
  lemma LookupNames()
    ensures forall i :: 0 <= i < |LookupLedById()| ==>
              LookupLedById()[i] == (10 + i, Name(MEMBERS[i]))
  {
    MemberValues();
  }

  // Sorting the table's entries by key, as `sorted(..., key=lambda x: x[0])` does.

  predicate SortedByKey(s: seq<(int, string)>)
  {
    forall i, j :: 0 <= i < j < |s| ==> s[i].0 <= s[j].0
  }

  predicate StrictlyIncreasing(s: seq<(int, string)>)
  {
    forall i, j :: 0 <= i < j < |s| ==> s[i].0 < s[j].0
  }

  /** Inserts x before the first entry whose key is not smaller. */
  function Insert(x: (int, string), s: seq<(int, string)>): (r: seq<(int, string)>)
    ensures |r| == |s| + 1
    ensures multiset(r) == multiset(s) + multiset{x}
  {
    if s == [] then [x]
    else if x.0 <= s[0].0 then [x] + s
    else
      assert s == [s[0]] + s[1..];
      [s[0]] + Insert(x, s[1..])
  }

  /** Inserting into a key-sorted list keeps it sorted. */
  lemma {:induction false} InsertSorted(x: (int, string), s: seq<(int, string)>)
    requires SortedByKey(s)
    ensures SortedByKey(Insert(x, s))
  {
    if s != [] && x.0 > s[0].0 {
      var tail := s[1..];
      assert SortedByKey(tail) by {
        forall i, j | 0 <= i < j < |tail| ensures tail[i].0 <= tail[j].0 {
          assert tail[i] == s[i + 1] && tail[j] == s[j + 1];
        }
      }
      InsertSorted(x, tail);
      var rest := Insert(x, tail);
      InsertMembers(x, tail);
      forall j | 0 <= j < |rest| ensures s[0].0 <= rest[j].0 {
        assert rest[j] in rest;
        if rest[j] != x {
          var k :| 0 <= k < |tail| && tail[k] == rest[j];
          assert s[k + 1] == rest[j];
        }
      }
      HeadBelowSorted(s[0], rest);
    }
  }

  /** Every entry of Insert(x, s) is x or an entry of s. */
  lemma {:induction false} InsertMembers(x: (int, string), s: seq<(int, string)>)
    ensures forall e :: e in Insert(x, s) ==> e == x || e in s
  {
    if s != [] && x.0 > s[0].0 {
      InsertMembers(x, s[1..]);
    }
  }

  /** An entry whose key is below every key of a sorted list can go in front of it. */
  lemma HeadBelowSorted(e: (int, string), s: seq<(int, string)>)
    requires SortedByKey(s)
    requires forall j :: 0 <= j < |s| ==> e.0 <= s[j].0
    ensures SortedByKey([e] + s)
  {
    var r := [e] + s;
    forall i, j | 0 <= i < j < |r| ensures r[i].0 <= r[j].0 {
      assert r[j] == s[j - 1];
      if i > 0 {
        assert r[i] == s[i - 1];
      }
    }
  }

  /** Insertion sort on keys, standing in for `sorted(..., key=lambda x: x[0])`.
      The entries it is used on have distinct keys, so stability does not arise. */
  function SortByKey(s: seq<(int, string)>): (r: seq<(int, string)>)
    ensures SortedByKey(r)
    ensures |r| == |s|
    ensures multiset(r) == multiset(s)
  {
    if s == [] then []
    else
      assert s == [s[0]] + s[1..];
      InsertSorted(s[0], SortByKey(s[1..]));
      Insert(s[0], SortByKey(s[1..]))
  }

  /** Sorting a list whose keys already strictly increase leaves it as it is. */
  lemma {:induction false} SortIncreasingIsIdentity(s: seq<(int, string)>)
    requires StrictlyIncreasing(s)
    ensures SortByKey(s) == s
  {
    if s != [] {
      SortIncreasingIsIdentity(s[1..]);
      assert s == [s[0]] + s[1..];
    }
  }

  /** The self-test's `sorted(LOOKUP_LED_BY_ID.items())` visits the table in
      its own order, ids 10..21 ascending. */
  lemma SortedLookupIsLookup()
    ensures SortByKey(LookupLedById()) == LookupLedById()
  {
    LookupNames();
    SortIncreasingIsIdentity(LookupLedById());
  }
}
