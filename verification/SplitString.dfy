// The in-place string helpers of gps/utils/loc_misc_utils.cpp, on NUL-terminated strings in
// character arrays.
module SplitString {

  const NUL := '\0'

  // The C string that starts at an offset: the characters up to the first NUL.
  function CString(s: seq<char>): (r: seq<char>)
    ensures |r| <= |s| && r == s[..|r|] && NUL !in r
    ensures |r| < |s| ==> s[|r|] == NUL
  {
    if s == [] || s[0] == NUL then [] else [s[0]] + CString(s[1..])
  }

  lemma {:induction false} CStringIs(s: seq<char>, n: nat)
    requires n < |s| && s[n] == NUL && NUL !in s[..n]
    ensures CString(s) == s[..n]
  {
    if n > 0 {
      assert s[1..][..n - 1] == s[..n][1..];
      CStringIs(s[1..], n - 1);
    }
  }

  // ----- splitting, as a function -----

  function CountOf(s: seq<char>, delim: char): nat {
    if s == [] then 0 else (if s[0] == delim then 1 else 0) + CountOf(s[1..], delim)
  }

  // The piece before the first delimiter and what follows it; all of s if there is none.
  function FirstPiece(s: seq<char>, delim: char): (n: nat)
    ensures n <= |s| && delim !in s[..n]
    ensures n < |s| ==> s[n] == delim
  {
    if s == [] || s[0] == delim then 0 else
      var n := FirstPiece(s[1..], delim) + 1;
      assert s[..n] == [s[0]] + s[1..][..n - 1];
      n
  }

  // The pieces loc_util_split_string delivers: at least one, at most limit.
  function Split(s: seq<char>, delim: char, limit: nat): (ps: seq<seq<char>>)
    requires limit >= 1
    ensures 1 <= |ps| <= limit
    decreases |s|
  {
    var n := FirstPiece(s, delim);
    if n == |s| || limit == 1 then [s[..n]]
    else [s[..n]] + Split(s[n + 1..], delim, limit - 1)
  }

  function Join(ps: seq<seq<char>>, delim: char): seq<char>
    requires ps != []
  {
    if |ps| == 1 then ps[0] else ps[0] + [delim] + Join(ps[1..], delim)
  }

  lemma {:induction false} FirstPieceCount(s: seq<char>, delim: char)
    ensures var n := FirstPiece(s, delim);
            CountOf(s, delim) == if n == |s| then 0 else 1 + CountOf(s[n + 1..], delim)
  {
    if s != [] && s[0] != delim {
      FirstPieceCount(s[1..], delim);
      var n := FirstPiece(s, delim);
      if n < |s| { assert s[1..][n..] == s[n + 1..]; }
    }
  }

  lemma {:induction false} SplitCount(s: seq<char>, delim: char, limit: nat)
    requires limit >= 1
    ensures |Split(s, delim, limit)| == if limit <= CountOf(s, delim) then limit else CountOf(s, delim) + 1
    decreases |s|
  {
    var n := FirstPiece(s, delim);
    FirstPieceCount(s, delim);
    if n < |s| && limit > 1 { SplitCount(s[n + 1..], delim, limit - 1); }
  }

  lemma {:induction false} SplitPieces(s: seq<char>, delim: char, limit: nat)
    requires limit >= 1
    ensures forall p :: p in Split(s, delim, limit) ==> delim !in p
    decreases |s|
  {
    var n := FirstPiece(s, delim);
    if n < |s| && limit > 1 { SplitPieces(s[n + 1..], delim, limit - 1); }
  }

  lemma {:induction false} JoinSplit(s: seq<char>, delim: char, limit: nat)
    requires limit >= 1
    ensures var joined := Join(Split(s, delim, limit), delim);
            && |joined| <= |s| && joined == s[..|joined|]
            && (CountOf(s, delim) < limit ==> |joined| == |s|)
            && (CountOf(s, delim) >= limit ==> |joined| < |s| && s[|joined|] == delim)
    decreases |s|
  {
    hide Join, CountOf, Split, FirstPiece;
    var n := FirstPiece(s, delim);
    SplitStep(s, delim, limit);
    FirstPieceCount(s, delim);
    JoinOne(s[..n], delim);
    if n < |s| && limit > 1 {
      var rest := s[n + 1..];
      JoinSplit(rest, delim, limit - 1);
      JoinStep(s[..n], Split(rest, delim, limit - 1), delim);
      PrefixAfter(s, n, Join(Split(rest, delim, limit - 1), delim));
    }
  }

  lemma SplitStep(s: seq<char>, delim: char, limit: nat)
    requires limit >= 1
    ensures var n := FirstPiece(s, delim);
            Split(s, delim, limit) ==
            if n == |s| || limit == 1 then [s[..n]] else [s[..n]] + Split(s[n + 1..], delim, limit - 1)
  {
  }

  lemma JoinStep(p: seq<char>, ps: seq<seq<char>>, delim: char)
    requires ps != []
    ensures Join([p] + ps, delim) == p + [delim] + Join(ps, delim)
  {
    assert ([p] + ps)[1..] == ps;
  }

  lemma JoinOne(p: seq<char>, delim: char)
    ensures Join([p], delim) == p
  {
  }

  lemma PrefixAfter(s: seq<char>, n: nat, joined: seq<char>)
    requires n < |s| && |joined| <= |s[n + 1..]| && joined == s[n + 1..][..|joined|]
    ensures s[..n] + [s[n]] + joined == s[..n + 1 + |joined|]
    ensures n + 1 + |joined| < |s| ==> s[n + 1 + |joined|] == s[n + 1..][|joined|]
  {
  }

  // The count, the pieces, and the way back: joining them gives the string again, or, if the
  // limit cut the splitting short, the prefix before the delimiter it stopped at.
  lemma SplitRoundTrip(s: seq<char>, delim: char, limit: nat)
    requires limit >= 1
    ensures var ps := Split(s, delim, limit);
            var joined := Join(ps, delim);
            && |ps| == (if limit <= CountOf(s, delim) then limit else CountOf(s, delim) + 1)
            && (forall p :: p in ps ==> delim !in p)
            && joined <= s
            && (joined == s <==> CountOf(s, delim) < limit)
            && (joined != s ==> s[|joined|] == delim)
  {
    hide Split, Join, CountOf;
    SplitCount(s, delim, limit);
    SplitPieces(s, delim, limit);
    JoinSplit(s, delim, limit);
  }

  // ----- splitting, in place -----

  // A piece stands in the buffer as a C string of its own.
  predicate StandsAt(buf: seq<char>, start: int, p: seq<char>) {
    && 0 <= start && start + |p| < |buf|
    && buf[start..start + |p|] == p && buf[start + |p|] == NUL && NUL !in p
  }

  ghost predicate AllStand(buf: seq<char>, starts: seq<int>, ps: seq<seq<char>>) {
    |starts| <= |ps| && forall j :: 0 <= j < |starts| ==> StandsAt(buf, starts[j], ps[j])
  }

  lemma StandingIsCString(buf: seq<char>, start: int, p: seq<char>)
    requires StandsAt(buf, start, p)
    ensures 0 <= start < |buf| && CString(buf[start..]) == p
  {
    assert buf[start..][..|p|] == p;
    CStringIs(buf[start..], |p|);
  }

  lemma FirstPieceIs(s: seq<char>, delim: char, n: nat)
    requires n <= |s| && delim !in s[..n] && (n < |s| ==> s[n] == delim)
    ensures FirstPiece(s, delim) == n
  {
  }

  lemma StandsElsewhere(buf: seq<char>, start: int, p: seq<char>, i: nat)
    requires StandsAt(buf, start, p) && start + |p| < i < |buf|
    ensures StandsAt(buf[i := NUL], start, p)
  {
    assert buf[i := NUL][start..start + |p|] == buf[start..start + |p|];
  }

  // The state of the scan at position i: the pieces before the last start stand, the rest of the
  // buffer is as it was, and no delimiter has been seen since the last start.
  ghost predicate Scanning(buf: seq<char>, starts: seq<int>, s: seq<char>, delim: char, limit: nat,
      ps: seq<seq<char>>, i: nat) {
    && NUL !in s && 1 <= |starts| <= limit && |starts| <= |ps|
    && var num := |starts| - 1;
    var start := starts[num];
    && 0 <= start <= i <= |s| < |buf|
    && buf[start..|s|] == s[start..] && buf[|s|] == NUL
    && delim !in s[start..i]
    && ps[num..] == Split(s[start..], delim, limit - num)
    && forall j :: 0 <= j < num ==> starts[j] + |ps[j]| < start && StandsAt(buf, starts[j], ps[j])
  }

  lemma ScanChar(buf: seq<char>, starts: seq<int>, s: seq<char>, delim: char, limit: nat, ps: seq<seq<char>>, i: nat)
    requires Scanning(buf, starts, s, delim, limit, ps, i)
    ensures buf[i] == NUL <==> i == |s|
    ensures i < |s| ==> buf[i] == s[i]
    ensures i < |s| && s[i] != delim ==> Scanning(buf, starts, s, delim, limit, ps, i + 1)
  {
    var start := starts[|starts| - 1];
    if i < |s| {
      assert buf[i] == buf[start..|s|][i - start] == s[start..][i - start] == s[i];
      assert s[start..i + 1] == s[start..i] + [s[i]];
    }
  }

  // A piece ends at i: it is the next one of the split, which ends here if the text or the limit
  // does...
  lemma PieceEnds(buf: seq<char>, starts: seq<int>, s: seq<char>, delim: char, limit: nat, ps: seq<seq<char>>, i: nat)
    requires Scanning(buf, starts, s, delim, limit, ps, i)
    requires i < |s| ==> s[i] == delim
    ensures var num, start := |starts| - 1, starts[|starts| - 1];
            && ps[num] == s[start..i]
            && (if i < |s| && |starts| < limit
                then |starts| < |ps| && ps[|starts|..] == Split(s[i + 1..], delim, limit - |starts|)
                else |ps| == |starts|)
  {
    hide StandsAt;
    var num, start := |starts| - 1, starts[|starts| - 1];
    var tail := s[start..];
    assert tail[..i - start] == s[start..i];
    FirstPieceIs(tail, delim, i - start);
    assert ps[num] == ps[num..][0];
    assert |ps[num..]| == |ps| - num;
    if i < |s| && |starts| < limit {
      assert tail[i - start + 1..] == s[i + 1..];
      assert ps[num + 1..] == ps[num..][1..];
    }
  }

  // ...and with the character at its end overwritten it stands, like those before it.
  lemma PieceStands(buf: seq<char>, starts: seq<int>, s: seq<char>, delim: char, limit: nat, ps: seq<seq<char>>, i: nat)
    requires Scanning(buf, starts, s, delim, limit, ps, i)
    requires ps[|starts| - 1] == s[starts[|starts| - 1]..i]
    ensures forall j :: 0 <= j < |starts| ==> StandsAt(buf[i := NUL], starts[j], ps[j])
    ensures forall j :: 0 <= j < |starts| ==> starts[j] + |ps[j]| <= i
  {
    hide Split;
    var num, start := |starts| - 1, starts[|starts| - 1];
    assert buf[i := NUL][start..i] == buf[start..|s|][..i - start];
    assert s[start..][..i - start] == s[start..i];
    assert forall c :: c in s[start..i] ==> c in s;
    assert StandsAt(buf[i := NUL], start, ps[num]);
    forall j | 0 <= j < num ensures StandsAt(buf[i := NUL], starts[j], ps[j]) {
      StandsElsewhere(buf, starts[j], ps[j], i);
    }
  }

  lemma ScanPiece(buf: seq<char>, starts: seq<int>, s: seq<char>, delim: char, limit: nat, ps: seq<seq<char>>, i: nat)
    requires Scanning(buf, starts, s, delim, limit, ps, i)
    requires i < |s| ==> s[i] == delim
    ensures AllStand(buf[i := NUL], starts, ps)
    ensures if i < |s| && |starts| < limit
            then Scanning(buf[i := NUL], starts + [i + 1], s, delim, limit, ps, i + 1)
            else |ps| == |starts|
  {
    hide Split, StandsAt;
    PieceEnds(buf, starts, s, delim, limit, ps, i);
    PieceStands(buf, starts, s, delim, limit, ps, i);
    if i < |s| && |starts| < limit {
      var start := starts[|starts| - 1];
      assert buf[i := NUL][i + 1..|s|] == buf[start..|s|][i + 1 - start..];
      assert s[start..][i + 1 - start..] == s[i + 1..];
    }
  }

  // loc_util_split_string: overwrites delimiters with NUL and fills in where the pieces start.
  // A limit below one acts like one.
  method SplitInPlace(raw: array<char>, pieces: array<int>, maxPieces: int, delim: char) returns (num: nat)
    requires |CString(raw[..])| < raw.Length
    requires pieces.Length >= 1 && pieces.Length >= maxPieces
    modifies raw, pieces
    ensures var ps := Split(CString(old(raw[..])), delim, if maxPieces < 1 then 1 else maxPieces);
            && num == |ps| <= pieces.Length
            && forall j :: 0 <= j < num ==>
                 0 <= pieces[j] < raw.Length && CString(raw[..][pieces[j]..]) == ps[j]
  {
    hide Split, Scanning, CString, AllStand;
    ghost var s := CString(raw[..]);
    ghost var limit := if maxPieces < 1 then 1 else maxPieces;
    ghost var ps := Split(s, delim, limit);
    var length := StrLen(raw);
    length := length + 1;
    ScanStart(raw[..], delim, limit);
    var i := 0;
    num := 0;
    pieces[0] := 0;
    assert pieces[..1] == [0];
    while i < length
      invariant 0 <= i <= |s| && num < limit
      invariant Scanning(raw[..], pieces[..num + 1], s, delim, limit, ps, i)
    {
      ghost var starts := pieces[..num + 1];
      ScanChar(raw[..], starts, s, delim, limit, ps, i);
      var endString := raw[i] == NUL;
      if raw[i] == delim || endString {
        ScanPiece(raw[..], starts, s, delim, limit, ps, i);
        Put(raw, i, NUL);
        num := num + 1;
        if i + 1 < length && num < maxPieces {
          Put(pieces, num, i + 1);
          assert pieces[..num + 1] == starts + [i + 1];
        } else {
          break;
        }
      }
      i := i + 1;
    }
    StandingAreCStrings(raw[..], pieces[..num], ps);
  }

  lemma StandingAreCStrings(buf: seq<char>, starts: seq<int>, ps: seq<seq<char>>)
    requires AllStand(buf, starts, ps)
    ensures forall j :: 0 <= j < |starts| ==> 0 <= starts[j] < |buf| && CString(buf[starts[j]..]) == ps[j]
  {
    hide CString, StandsAt;
    forall j | 0 <= j < |starts| ensures 0 <= starts[j] < |buf| && CString(buf[starts[j]..]) == ps[j] {
      StandingIsCString(buf, starts[j], ps[j]);
    }
  }

  method Put<T>(a: array<T>, i: nat, x: T)
    requires i < a.Length
    modifies a
    ensures a[..] == old(a[..])[i := x]
  {
    a[i] := x;
  }

  lemma ScanStart(buf: seq<char>, delim: char, limit: nat)
    requires |CString(buf)| < |buf| && limit >= 1
    ensures Scanning(buf, [0], CString(buf), delim, limit, Split(CString(buf), delim, limit), 0)
  {
    hide Split;
    var s := CString(buf);
    assert buf[0..|s|] == s[0..] && s[0..] == s;
    assert Split(s, delim, limit)[0..] == Split(s, delim, limit);
  }

  method StrLen(raw: array<char>) returns (n: nat)
    requires |CString(raw[..])| < raw.Length
    ensures n == |CString(raw[..])|
  {
    ghost var s := CString(raw[..]);
    n := 0;
    while raw[n] != NUL
      invariant n <= |s|
      decreases |s| - n
    {
      n := n + 1;
    }
  }

  // ----- trimming, in place -----

  predicate IsSpace(c: char) { c == ' ' || '\t' <= c <= '\r' }

  function TrimLeft(s: seq<char>): seq<char> {
    if s != [] && IsSpace(s[0]) then TrimLeft(s[1..]) else s
  }

  function TrimRight(s: seq<char>): seq<char> {
    if s != [] && IsSpace(s[|s| - 1]) then TrimRight(s[..|s| - 1]) else s
  }

  predicate AllSpace(s: seq<char>) { forall c :: c in s ==> IsSpace(c) }

  lemma {:induction false} TrimLeftIs(s: seq<char>, n: nat)
    requires n < |s| && AllSpace(s[..n]) && !IsSpace(s[n])
    ensures TrimLeft(s) == s[n..]
  {
    if n > 0 {
      assert s[0] in s[..n];
      assert forall c :: c in s[1..][..n - 1] ==> c in s[..n];
      TrimLeftIs(s[1..], n - 1);
      assert s[1..][n - 1..] == s[n..];
    }
  }

  lemma {:induction false} TrimRightIs(s: seq<char>, n: nat)
    requires 0 < n <= |s| && AllSpace(s[n..]) && !IsSpace(s[n - 1])
    ensures TrimRight(s) == s[..n]
    decreases |s|
  {
    if n < |s| {
      var init := s[..|s| - 1];
      assert s[|s| - 1] in s[n..];
      assert forall c :: c in init[n..] ==> c in s[n..];
      TrimRightIs(init, n);
      assert init[..n] == s[..n];
    }
  }

  // The state of the scan: nothing but spaces so far; or the text from the first non-space on
  // has been copied to the front, and last is one past its last non-space.
  ghost predicate Trimming(buf: seq<char>, s: seq<char>, scan: nat, first: int, last: int) {
    && scan <= |s| < |buf| && buf[scan..|s|] == s[scan..] && buf[|s|] == NUL
    && (first == -1 ==> last == -1 && AllSpace(s[..scan]) && buf[..scan] == s[..scan])
    && (first != -1 ==>
          && 0 <= first < scan && AllSpace(s[..first]) && !IsSpace(s[first])
          && 0 < last <= scan - first && !IsSpace(s[first + last - 1]) && AllSpace(s[first + last..scan])
          && buf[..scan - first] == s[first..scan])
  }

  lemma TrimChar(buf: seq<char>, s: seq<char>, scan: nat, first: int, last: int)
    requires Trimming(buf, s, scan, first, last) && NUL !in s
    ensures buf[scan] == NUL <==> scan == |s|
    ensures scan < |s| ==> buf[scan] == s[scan]
    ensures first == -1 && scan < |s| && IsSpace(s[scan]) ==> Trimming(buf, s, scan + 1, first, last)
  {
    if scan < |s| {
      assert buf[scan] == buf[scan..|s|][0];
      assert s[..scan + 1] == s[..scan] + [s[scan]];
      assert buf[scan + 1..|s|] == buf[scan..|s|][1..];
    }
  }

  lemma TrimCopy(buf: seq<char>, s: seq<char>, scan: nat, first: int, last: int)
    requires Trimming(buf, s, scan, first, last) && scan < |s| && (first == -1 ==> !IsSpace(s[scan]))
    ensures var first' := if first == -1 then scan else first;
            var write := scan - first';
            Trimming(buf[write := s[scan]], s, scan + 1, first', if IsSpace(s[scan]) then last else write + 1)
  {
    var first' := if first == -1 then scan else first;
    var write := scan - first';
    var buf' := buf[write := s[scan]];
    assert buf'[scan + 1..|s|] == buf[scan..|s|][1..];
    assert buf'[..write + 1] == (if first == -1 then [] else buf[..write]) + [s[scan]];
    assert s[first'..scan + 1] == (if first == -1 then [] else s[first..scan]) + [s[scan]];
    if first != -1 && IsSpace(s[scan]) {
      assert s[first + last..scan + 1] == s[first + last..scan] + [s[scan]];
    }
  }

  lemma TrimEnd(buf: seq<char>, s: seq<char>, first: int, last: int)
    requires Trimming(buf, s, |s|, first, last) && NUL !in s
    ensures first == -1 ==> last == -1 && AllSpace(s) && CString(buf) == s
    ensures first != -1 ==> !AllSpace(s) && 0 <= last < |buf| && CString(buf[last := NUL]) == TrimRight(TrimLeft(s))
  {
    if first == -1 {
      assert s[..|s|] == s && buf[..|s|] == s;
      CStringIs(buf, |s|);
    } else {
      var left := s[first..];
      TrimLeftIs(s, first);
      assert left[last..] == s[first + last..];
      TrimRightIs(left, last);
      var buf' := buf[last := NUL];
      assert buf'[..last] == buf[..|s| - first][..last] == left[..last];
      assert forall c :: c in left[..last] ==> c in s;
      CStringIs(buf', last);
    }
  }

  // loc_util_trim_space: shifts everything from the first non-space on to the front and ends the
  // string after the last non-space. A string of nothing but spaces is left as it is.
  method TrimInPlace(org: array<char>)
    requires |CString(org[..])| < org.Length
    modifies org
    ensures var s := CString(old(org[..]));
            CString(org[..]) == if AllSpace(s) then s else TrimRight(TrimLeft(s))
  {
    hide CString, TrimLeft, TrimRight, Trimming;
    ghost var s := CString(org[..]);
    TrimStart(org[..]);
    var scan, write := 0, 0;
    var first, last := -1, -1;
    while org[scan] != NUL
      invariant scan <= |s| < org.Length
      invariant write == if first == -1 then 0 else scan - first
      invariant first <= scan && (first == -1 || 0 <= first < scan)
      invariant Trimming(org[..], s, scan, first, last)
      decreases |s| - scan
    {
      TrimChar(org[..], s, scan, first, last);
      var c := org[scan];
      if !IsSpace(c) && first == -1 {
        TrimCopy(org[..], s, scan, first, last);
        first := scan;
      } else if first != -1 {
        TrimCopy(org[..], s, scan, first, last);
      }
      if first != -1 {
        Put(org, write, c);
        write := write + 1;
        if !IsSpace(c) {
          last := write;
        }
      }
      scan := scan + 1;
    }
    TrimChar(org[..], s, scan, first, last);
    TrimEnd(org[..], s, first, last);
    if last != -1 {
      Put(org, last, NUL);
    }
  }

  lemma {:induction false} AllSpaceTrims(s: seq<char>)
    requires AllSpace(s)
    ensures TrimLeft(s) == []
  {
    if s != [] {
      assert IsSpace(s[0]);
      AllSpaceTrims(s[1..]);
    }
  }

  // isspace in the C locale: space, tab, newline, vertical tab, form feed, carriage return.
  lemma SpaceIs(c: char)
    ensures IsSpace(c) <==> c as int in {32, 9, 10, 11, 12, 13}
  {
  }

  // What TrimInPlace leaves is the trimmed string exactly if there is something besides space, or
  // nothing at all.
  lemma TrimsIff(s: seq<char>)
    ensures (if AllSpace(s) then s else TrimRight(TrimLeft(s))) == TrimRight(TrimLeft(s))
            <==> !AllSpace(s) || s == []
  {
    if AllSpace(s) { AllSpaceTrims(s); }
  }

  // Two spaces stay two spaces.
  lemma SpacesStay()
    ensures AllSpace("  ") && TrimRight(TrimLeft("  ")) == "" && "  " != ""
  {
    AllSpaceTrims("  ");
  }

  lemma TrimStart(buf: seq<char>)
    requires |CString(buf)| < |buf|
    ensures Trimming(buf, CString(buf), 0, -1, -1) && NUL !in CString(buf)
  {
    var s := CString(buf);
    assert buf[0..|s|] == s[0..] && s[0..] == s;
  }
}
