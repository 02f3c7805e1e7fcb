/** src/utils/nameGenerator.js: fixed lists of first and last names and a module-level
    cursor `nameIndex` that walks both lists at once. The cursor wraps at the length of the
    longer list and is reduced modulo each list's own length when it is read. */
module NameGenerator {
  import opened Cycle

  const Loading: string := "Loading..."

  function Max(a: nat, b: nat): nat
  {
    if a >= b then a else b
  }

  /** The full name the cursor position `i` stands for. */
  function FullNameAt(first: seq<string>, last: seq<string>, i: nat): string
    requires first != [] && last != []
  {
    first[i % |first|] + " " + last[i % |last|]
  }

  /** A generated full name is never the "Loading..." placeholder: it always holds a space,
      which the placeholder does not, so callers can tell the two apart. */
  lemma FullNameIsNotPlaceholder(first: seq<string>, last: seq<string>, i: nat)
    requires first != [] && last != []
    ensures FullNameAt(first, last, i) != Loading
  {
    var f := first[i % |first|];
    var r := FullNameAt(first, last, i);
    assert r[|f|] == ' ';
    assert forall k :: 0 <= k < |Loading| ==> Loading[k] != ' ';
  }

  /** When both lists have the same length, one lap from position 0 pairs the i-th first
      name with the i-th last name. */
  lemma {:induction false} SameLengthLap(first: seq<string>, last: seq<string>, j: nat)
    requires first != [] && |first| == |last| && j < |first|
    ensures CursorAfter(Max(|first|, |last|), 0, j) == j
    ensures FullNameAt(first, last, CursorAfter(Max(|first|, |last|), 0, j)) == first[j] + " " + last[j]
  {
    var n := |first|;
    assert Max(|first|, |last|) == n;
    FirstLap(n, j);
    assert j % n == j;
  }

  class NameGenerator {
    const firstNames: seq<string>
    const lastNames: seq<string>
    var nameIndex: nat

    /** The cursor is below the length of the longer list (and 0 while both are empty). */
    ghost predicate Valid()
      reads this
    {
      nameIndex == 0 || nameIndex < Max(|firstNames|, |lastNames|)
    }

    constructor (first: seq<string>, last: seq<string>)
      ensures Valid()
      ensures firstNames == first && lastNames == last && nameIndex == 0
    {
      firstNames := first;
      lastNames := last;
      nameIndex := 0;
    }

    /** `areNamesLoaded`. */
    predicate AreNamesLoaded()
    {
      |firstNames| > 0 && |lastNames| > 0
    }

    /** `getNextFullName`. */
    method NextFullName() returns (name: string)
      requires Valid()
      modifies this
      ensures Valid()
      ensures !AreNamesLoaded() ==> name == Loading && nameIndex == old(nameIndex)
      ensures AreNamesLoaded() ==> name == FullNameAt(firstNames, lastNames, old(nameIndex))
      ensures AreNamesLoaded() ==> nameIndex == Step(Max(|firstNames|, |lastNames|), old(nameIndex))
      ensures AreNamesLoaded() ==> nameIndex < Max(|firstNames|, |lastNames|)
    {
      if |firstNames| == 0 || |lastNames| == 0 {
        return Loading;
      }
      var f := firstNames[nameIndex % |firstNames|];
      var l := lastNames[nameIndex % |lastNames|];
      nameIndex := (nameIndex + 1) % Max(|firstNames|, |lastNames|);
      name := f + " " + l;
    }

    /** `generateBothNames`: the sender gets the name at the cursor, the recipient the
        name at the next position, and the cursor moves two places. */
    method GenerateBothNames() returns (senderName: string, recipientName: string)
      requires Valid()
      modifies this
      ensures Valid()
      ensures !AreNamesLoaded() ==> senderName == Loading && recipientName == Loading
      ensures !AreNamesLoaded() ==> nameIndex == old(nameIndex)
      ensures AreNamesLoaded() ==>
        var m := Max(|firstNames|, |lastNames|);
        && senderName == FullNameAt(firstNames, lastNames, old(nameIndex))
        && recipientName == FullNameAt(firstNames, lastNames, Step(m, old(nameIndex)))
        && nameIndex == CursorAfter(m, old(nameIndex), 2)
    {
      ghost var m := Max(|firstNames|, |lastNames|);
      ghost var i0 := nameIndex;
      senderName := NextFullName();
      ghost var i1 := nameIndex;
      recipientName := NextFullName();
      if AreNamesLoaded() {
        assert i1 == Step(m, i0);
        assert CursorAfter(m, i0, 1) == i1;
        assert nameIndex == Step(m, i1);
      }
    }

    /** `getAllFirstNames`: a copy of the list; no state changes. */
    method AllFirstNames() returns (all: seq<string>)
      ensures all == firstNames
    {
      all := firstNames[..];
    }

    /** `getAllLastNames`: a copy of the list; no state changes. */
    method AllLastNames() returns (all: seq<string>)
      ensures all == lastNames
    {
      all := lastNames[..];
    }

    /** `getRandomFirstName`, with the random position `pick` as a parameter. */
    function RandomFirstName(pick: nat): (r: string)
      requires firstNames != [] ==> pick < |firstNames|
      ensures firstNames == [] ==> r == Loading
      ensures firstNames != [] ==> r in firstNames
    {
      if |firstNames| == 0 then Loading else firstNames[pick]
    }

    /** `getRandomLastName`, with the random position `pick` as a parameter. */
    function RandomLastName(pick: nat): (r: string)
      requires lastNames != [] ==> pick < |lastNames|
      ensures lastNames == [] ==> r == Loading
      ensures lastNames != [] ==> r in lastNames
    {
      if |lastNames| == 0 then Loading else lastNames[pick]
    }

    /** `getRandomFullName`, with both random positions as parameters. */
    function RandomFullName(pickFirst: nat, pickLast: nat): (r: string)
      requires firstNames != [] ==> pickFirst < |firstNames|
      requires lastNames != [] ==> pickLast < |lastNames|
      ensures !AreNamesLoaded() ==> r == Loading
      ensures AreNamesLoaded() ==>
        exists f, l :: f in firstNames && l in lastNames && r == f + " " + l
    {
      if |firstNames| == 0 || |lastNames| == 0 then Loading
      else RandomFirstName(pickFirst) + " " + RandomLastName(pickLast)
    }
  }
}
