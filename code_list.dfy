/** Gift-card code lists: `codes.split(/[,\n\r]+/).map(c => c.trim()).filter(c => c.length > 0)`.
    The same expression appears in the batch-redeem handler of the server and in the redeem form. */
module CodeList {
  import opened JsStrings

  /** The characters of the class `[,\n\r]`. */
  predicate IsSeparator(c: char)
  {
    c == ',' || c == '\n' || c == '\r'
  }

  predicate NoSeparators(s: string)
  {
    forall i :: 0 <= i < |s| ==> !IsSeparator(s[i])
  }

  /** Drops the separators at the front of `s`. */
  function SkipSeparators(s: string): (r: string)
    ensures |r| <= |s|
    ensures r == [] || !IsSeparator(r[0])
  {
    if s != [] && IsSeparator(s[0]) then SkipSeparators(s[1..]) else s
  }

  /** `s.split(/[,\n\r]+/)`: a run of separators is one boundary, so the pieces are
      separator-free, and only a leading or trailing run yields an empty piece. */
  function Fields(s: string): (r: seq<string>)
    ensures |r| >= 1
    ensures forall k :: 0 <= k < |r| ==> NoSeparators(r[k])
    decreases |s|
  {
    if s == [] then [""]
    else if IsSeparator(s[0]) then [""] + Fields(SkipSeparators(s[1..]))
    else
      var rest := Fields(s[1..]);
      [[s[0]] + rest[0]] + rest[1..]
  }

  /** `.map(c => c.trim())`. */
  function TrimAll(xs: seq<string>): (r: seq<string>)
    ensures |r| == |xs|
    ensures forall k :: 0 <= k < |r| ==> r[k] == Trim(xs[k])
  {
    if xs == [] then [] else [Trim(xs[0])] + TrimAll(xs[1..])
  }

  /** `.filter(c => c.length > 0)`. */
  function DropEmpty(xs: seq<string>): (r: seq<string>)
    ensures |r| <= |xs|
    ensures forall k :: 0 <= k < |r| ==> r[k] != ""
  {
    if xs == [] then []
    else if xs[0] == "" then DropEmpty(xs[1..])
    else [xs[0]] + DropEmpty(xs[1..])
  }

  /** A code as the parser yields it: non-empty, trimmed and free of separators. */
  predicate IsCleanCode(c: string)
  {
    c != "" && IsTrimmed(c) && NoSeparators(c)
  }

  /** The code list parsed from the text of a form field or a request body. */
  function ParseCodes(codes: string): (r: seq<string>)
    ensures forall k :: 0 <= k < |r| ==> IsCleanCode(r[k])
  {
    var pieces := Fields(codes);
    var trimmed := TrimAll(pieces);
    forall k | 0 <= k < |trimmed|
      ensures IsTrimmed(trimmed[k]) && NoSeparators(trimmed[k])
    {
      TrimKeepsNoSeparators(pieces[k]);
    }
    DropEmptyKeepsClean(trimmed);
    DropEmpty(trimmed)
  }

  lemma TrimKeepsNoSeparators(p: string)
    requires NoSeparators(p)
    ensures NoSeparators(Trim(p))
  {
    var t := TrimStart(p);
    TrimStartIsSuffix(p);
    assert NoSeparators(t);
    var r := TrimEnd(t);
    TrimEndIsPrefix(t);
  }

  lemma {:induction false} DropEmptyKeepsClean(xs: seq<string>)
    requires forall k :: 0 <= k < |xs| ==> IsTrimmed(xs[k]) && NoSeparators(xs[k])
    ensures forall k :: 0 <= k < |DropEmpty(xs)| ==> IsCleanCode(DropEmpty(xs)[k])
  {
    if xs != [] {
      DropEmptyKeepsClean(xs[1..]);
    }
  }

  /** Splitting `x + t` where `x` holds no separator glues `x` to the first piece of `t`. */
  lemma {:induction false} FieldsOfPrefix(x: string, t: string)
    requires NoSeparators(x)
    ensures Fields(x + t) == [x + Fields(t)[0]] + Fields(t)[1..]
    decreases |x|
  {
    if x != [] {
      assert (x + t)[0] == x[0];
      assert (x + t)[1..] == x[1..] + t;
      FieldsOfPrefix(x[1..], t);
      var rest := Fields(x[1..] + t);
      assert rest[0] == x[1..] + Fields(t)[0];
      assert rest[1..] == Fields(t)[1..];
      assert [x[0]] + rest[0] == x + Fields(t)[0];
    } else {
      assert x + t == t;
      var f := Fields(t);
      assert x + f[0] == f[0];
      assert [f[0]] + f[1..] == f;
    }
  }

  /** A separator-free string is one piece. */
  lemma {:induction false} FieldsOfClean(x: string)
    requires NoSeparators(x)
    ensures Fields(x) == [x]
  {
    FieldsOfPrefix(x, "");
    assert x + "" == x;
  }

  /** Splitting a list of clean codes joined by newlines gives back the pieces. */
  lemma {:induction false} FieldsOfJoin(xs: seq<string>)
    requires |xs| >= 1
    requires forall k :: 0 <= k < |xs| ==> IsCleanCode(xs[k])
    ensures Fields(Join(xs, "\n")) == xs
    decreases |xs|
  {
    if |xs| == 1 {
      FieldsOfClean(xs[0]);
    } else {
      var tail := Join(xs[1..], "\n");
      FieldsOfJoin(xs[1..]);
      assert tail != [] && !IsSeparator(tail[0]) by {
        assert Fields(tail)[0] == xs[1];
        assert xs[1] != [] && !IsSeparator(xs[1][0]);
      }
      assert SkipSeparators(tail) == tail;
      var nt := "\n" + tail;
      assert Fields(nt) == [""] + Fields(tail) by {
        assert nt[1..] == tail;
      }
      FieldsOfPrefix(xs[0], nt);
      assert Join(xs, "\n") == xs[0] + nt;
      assert Fields(nt)[0] == "" && Fields(nt)[1..] == xs[1..];
      assert xs[0] + "" == xs[0];
      assert [xs[0]] + xs[1..] == xs;
    }
  }

  lemma {:induction false} DropEmptyOfNonEmpty(xs: seq<string>)
    requires forall k :: 0 <= k < |xs| ==> xs[k] != ""
    ensures DropEmpty(xs) == xs
  {
    if xs != [] {
      DropEmptyOfNonEmpty(xs[1..]);
    }
  }

  lemma {:induction false} TrimAllOfTrimmed(xs: seq<string>)
    requires forall k :: 0 <= k < |xs| ==> IsTrimmed(xs[k])
    ensures TrimAll(xs) == xs
  {
    forall k | 0 <= k < |xs|
      ensures TrimAll(xs)[k] == xs[k]
    {
      TrimOfTrimmed(xs[k]);
    }
  }

  /** Re-splitting a list of clean codes joined with '\n' gives the same list back:
      the redeem form joins the codes it parsed and the server parses them again. */
  lemma {:induction false} ParseJoinRoundTrip(xs: seq<string>)
    requires forall k :: 0 <= k < |xs| ==> IsCleanCode(xs[k])
    ensures ParseCodes(Join(xs, "\n")) == xs
  {
    if xs == [] {
      assert Join(xs, "\n") == "";
      assert Fields("") == [""];
      assert TrimAll([""]) == [""];
    } else {
      FieldsOfJoin(xs);
      TrimAllOfTrimmed(xs);
      DropEmptyOfNonEmpty(xs);
    }
  }

  /** Parsing is idempotent through a join: a parsed list survives another round. */
  lemma ParseIsStable(codes: string)
    ensures ParseCodes(Join(ParseCodes(codes), "\n")) == ParseCodes(codes)
  {
    ParseJoinRoundTrip(ParseCodes(codes));
  }
}
