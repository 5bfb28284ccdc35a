/** The ordered set of (time, address) entries: a sequence without duplicates, in increasing order. */
module OrderedEntries {
  import opened Time

  /** A timer's place on the heap. */
  type Address = nat

  datatype Entry = Entry(time: Timestamp, addr: Address)

  predicate Less(a: Entry, b: Entry) {
    a.time < b.time || (a.time == b.time && a.addr < b.addr)
  }

  ghost predicate Sorted(s: seq<Entry>) {
    forall i, j :: 0 <= i < j < |s| ==> Less(s[i], s[j])
  }

  /** Earlier times come first, and equal times in the order of the addresses; no entry is there twice. */
  lemma SortedByTimeThenAddress(s: seq<Entry>, i: nat, j: nat)
    requires Sorted(s) && i < j < |s|
    ensures s[i].time < s[j].time || (s[i].time == s[j].time && s[i].addr < s[j].addr)
  {
  }

  function Insert(s: seq<Entry>, e: Entry): (r: seq<Entry>)
    requires Sorted(s)
    ensures Sorted(r)
    ensures forall x :: x in r <==> x == e || x in s
    ensures r != []
    ensures r[0] == if s == [] || Less(e, s[0]) then e else s[0]
    ensures |r| == if e in s then |s| else |s| + 1
  {
    if s == [] then [e]
    else if Less(e, s[0]) then
      assert forall x :: x in s ==> Less(e, x);
      [e] + s
    else if e == s[0] then s
    else
      var rest := Insert(s[1..], e);
      assert s == [s[0]] + s[1..];
      [s[0]] + rest
  }

  function Erase(s: seq<Entry>, e: Entry): (r: seq<Entry>)
    requires Sorted(s)
    ensures Sorted(r)
    ensures forall x :: x in r <==> x in s && x != e
    ensures |r| == if e in s then |s| - 1 else |s|
    ensures s != [] && s[0] == e ==> r == s[1..]
    ensures s != [] && s[0] != e ==> r != [] && r[0] == s[0]
  {
    if s == [] then []
    else if s[0] == e then
      assert s == [s[0]] + s[1..];
      assert e !in s[1..];
      s[1..]
    else
      assert s == [s[0]] + s[1..];
      [s[0]] + Erase(s[1..], e)
  }

  /** The position of the first entry not below the sentry (now, all-ones address): every address is
      below the all-ones address, so the entries before it are those due at `now`. */
  function LowerBound(s: seq<Entry>, now: Timestamp): (k: nat)
    requires Sorted(s)
    ensures k <= |s|
    ensures forall i :: 0 <= i < k ==> s[i].time <= now
    ensures forall i :: k <= i < |s| ==> now < s[i].time
  {
    if s == [] || now < s[0].time then 0 else 1 + LowerBound(s[1..], now)
  }

  /** The lower bound splits the set into the entries due at `now`, still in order, and the later ones. */
  lemma LowerBoundSplits(s: seq<Entry>, now: Timestamp)
    requires Sorted(s)
    ensures var k := LowerBound(s, now);
            && Sorted(s[..k])
            && (forall e :: e in s[..k] <==> e in s && e.time <= now)
            && (forall e :: e in s[k..] <==> e in s && now < e.time)
  {
  }
}
