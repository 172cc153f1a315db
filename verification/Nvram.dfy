/** Packing the text NVRAM file: its lines, stripped of comments and blanks, each NUL-terminated. */
module Nvram {
  import opened Wire

  const LINE_MAX: nat := 1024
  const FILE_MAX: nat := 16384
  const NEWLINE: byte := 10
  const HASH: byte := 35
  const EQUALS: byte := 61

  // ---------------------------------------------------------------- what is kept of a file

  predicate Printable(c: byte) { c == 13 || c == 9 || 32 <= c <= 126 }

  predicate AllPrintable(line: seq<byte>) { forall i :: 0 <= i < |line| ==> Printable(line[i]) }

  function LineLength(raw: seq<byte>): (n: nat)
    ensures n <= |raw| && (n < |raw| ==> raw[n] == NEWLINE) && NEWLINE !in raw[..n]
  {
    if raw == [] || raw[0] == NEWLINE then 0
    else
      var n := LineLength(raw[1..]);
      assert raw[..n + 1] == [raw[0]] + raw[1..][..n];
      n + 1
  }

  function Lines(raw: seq<byte>): seq<seq<byte>>
    decreases |raw|
  {
    if raw == [] then []
    else
      var n := LineLength(raw);
      [raw[..n]] + if n < |raw| then Lines(raw[n + 1..]) else []
  }

  predicate Blank(c: byte) { c == 32 || c == 9 }

  predicate Trailing(c: byte) { c == 32 || c == 13 || c == 9 }

  function TrimStart(l: seq<byte>): seq<byte> { if l != [] && Blank(l[0]) then TrimStart(l[1..]) else l }

  function Cut(l: seq<byte>): seq<byte> { if l == [] || l[0] == HASH then [] else [l[0]] + Cut(l[1..]) }

  function TrimEnd(l: seq<byte>): seq<byte> { if l != [] && Trailing(l[|l| - 1]) then TrimEnd(l[..|l| - 1]) else l }

  function Strip(l: seq<byte>): seq<byte> { TrimEnd(Cut(TrimStart(l))) }

  /** A kept line must be a nonempty name, an equals sign and a value, of bounded length. */
  predicate Assignment(l: seq<byte>) { 0 < |l| <= LINE_MAX && l[0] != EQUALS && EQUALS in l }

  /** The lines that remain, in order; nothing at all if any line is not text or not an assignment. */
  function Kept(lines: seq<seq<byte>>): Option<seq<seq<byte>>> {
    if lines == [] then Some([])
    else
      var l, rest := Strip(lines[0]), Kept(lines[1..]);
      if !AllPrintable(lines[0]) || (l != [] && !Assignment(l)) || rest.None? then None
      else Some((if l == [] then [] else [l]) + rest.value)
  }

  function Terminated(kept: seq<seq<byte>>): seq<byte> {
    if kept == [] then [] else Terminated(kept[..|kept| - 1]) + kept[|kept| - 1] + [0]
  }

  /** One more NUL ends the block, and zeros fill the last word. */
  function Packed(kept: seq<seq<byte>>): seq<byte> {
    var t := Terminated(kept);
    t + Zeros(Align4(|t| + 1) - |t|)
  }

  predicate Packable(raw: seq<byte>, cap: nat) {
    && 0 < |raw| <= FILE_MAX && cap >= 8
    && Kept(Lines(raw)).Some? && Kept(Lines(raw)).value != [] && |Terminated(Kept(Lines(raw)).value)| + 4 <= cap
  }

  // ---------------------------------------------------------------- packing twice changes nothing

  lemma {:induction false} TrimStartIsSuffix(l: seq<byte>)
    ensures |TrimStart(l)| <= |l| && TrimStart(l) == l[|l| - |TrimStart(l)|..]
    ensures TrimStart(l) != [] ==> !Blank(TrimStart(l)[0])
  {
    if l != [] && Blank(l[0]) { TrimStartIsSuffix(l[1..]); }
  }

  lemma {:induction false} CutIsPrefix(l: seq<byte>)
    ensures |Cut(l)| <= |l| && Cut(l) == l[..|Cut(l)|] && HASH !in Cut(l)
    ensures HASH !in l ==> Cut(l) == l
    ensures |Cut(l)| < |l| ==> l[|Cut(l)|] == HASH
  {
    if l != [] && l[0] != HASH {
      CutIsPrefix(l[1..]);
      assert l == [l[0]] + l[1..];
    }
  }

  lemma {:induction false} TrimEndIsPrefix(l: seq<byte>)
    ensures |TrimEnd(l)| <= |l| && TrimEnd(l) == l[..|TrimEnd(l)|]
    ensures TrimEnd(l) != [] ==> !Trailing(TrimEnd(l)[|TrimEnd(l)| - 1])
  {
    if l != [] && Trailing(l[|l| - 1]) { TrimEndIsPrefix(l[..|l| - 1]); }
  }

  /** A stripped line is a piece of the line, is already stripped, and carries no comment. */
  lemma {:induction false} StripFacts(l: seq<byte>)
    ensures |Strip(l)| <= |l| && HASH !in Strip(l) && Strip(Strip(l)) == Strip(l)
    ensures forall c :: c in Strip(l) ==> c in l
  {
    var a := TrimStart(l);
    var b := Cut(a);
    var s := TrimEnd(b);
    TrimStartIsSuffix(l);
    CutIsPrefix(a);
    TrimEndIsPrefix(b);
    forall c | c in s ensures c in l { assert c in b && c in a; }
    if s != [] {
      assert s[0] == a[0];
      assert TrimStart(s) == s;
      CutIsPrefix(s);
    }
  }

  function Join(kept: seq<seq<byte>>): seq<byte> {
    if kept == [] then [] else if |kept| == 1 then kept[0] else kept[0] + [NEWLINE] + Join(kept[1..])
  }

  ghost predicate AllKept(kept: seq<seq<byte>>) {
    forall i :: 0 <= i < |kept| ==> Assignment(kept[i]) && AllPrintable(kept[i]) && Strip(kept[i]) == kept[i]
  }

  lemma {:induction false} KeptFacts(lines: seq<seq<byte>>)
    requires Kept(lines).Some?
    ensures AllKept(Kept(lines).value)
  {
    hide Strip, Assignment;
    if lines != [] {
      KeptFacts(lines[1..]);
      StripFacts(lines[0]);
      StripPrintable(lines[0]);
    }
  }

  lemma {:induction false} StripPrintable(l: seq<byte>)
    requires AllPrintable(l)
    ensures AllPrintable(Strip(l))
  {
    StripFacts(l);
    forall i | 0 <= i < |Strip(l)| ensures Printable(Strip(l)[i]) { assert Strip(l)[i] in l; }
  }

  lemma {:induction false} FirstLine(l: seq<byte>, rest: seq<byte>)
    requires NEWLINE !in l
    ensures LineLength(l + [NEWLINE] + rest) == |l| && LineLength(l) == |l|
  {
    if l != [] {
      assert (l + [NEWLINE] + rest)[1..] == l[1..] + [NEWLINE] + rest;
      FirstLine(l[1..], rest);
    }
  }

  lemma {:induction false} LinesOfJoin(kept: seq<seq<byte>>)
    requires AllKept(kept)
    ensures Lines(Join(kept)) == kept
  {
    hide Strip;
    if kept != [] {
      NoNewline(kept[0]);
      if |kept| == 1 {
        FirstLine(kept[0], []);
        assert Join(kept)[..|kept[0]|] == kept[0];
      } else {
        var rest := Join(kept[1..]);
        FirstLine(kept[0], rest);
        LinesOfJoin(kept[1..]);
        assert Join(kept)[..|kept[0]|] == kept[0] && Join(kept)[|kept[0]| + 1..] == rest;
        assert kept == [kept[0]] + kept[1..];
      }
    }
  }

  lemma NoNewline(l: seq<byte>)
    requires AllPrintable(l)
    ensures NEWLINE !in l
  {
    forall i | 0 <= i < |l| ensures l[i] != NEWLINE { assert Printable(l[i]); }
  }

  lemma {:induction false} KeptOfKept(kept: seq<seq<byte>>)
    requires AllKept(kept)
    ensures Kept(kept) == Some(kept)
  {
    hide Strip, Assignment, AllPrintable;
    if kept != [] {
      KeptOfKept(kept[1..]);
      assert kept == [kept[0]] + kept[1..];
      assert kept[0] != [] by { AssignmentNonempty(kept[0]); }
    }
  }

  lemma AssignmentNonempty(l: seq<byte>)
    requires Assignment(l)
    ensures l != []
  {}

  // ---------------------------------------------------------------- room

  lemma {:induction false} TerminatedSplit(kept: seq<seq<byte>>)
    requires kept != []
    ensures Terminated(kept) == kept[0] + [0] + Terminated(kept[1..])
  {
    if |kept| > 1 {
      TerminatedSplit(kept[..|kept| - 1]);
      assert kept[..|kept| - 1][1..] == kept[1..][..|kept| - 2];
      assert Terminated(kept) == (kept[0] + [0] + Terminated(kept[1..][..|kept| - 2])) + kept[|kept| - 1] + [0];
    } else {
      assert kept[1..] == [] && kept[..0] == [];
    }
  }

  /** The block needs at most one byte more than the file, so a buffer eight bytes longer always does. */
  lemma {:induction false} RoomSuffices(raw: seq<byte>)
    requires Kept(Lines(raw)).Some?
    ensures |Terminated(Kept(Lines(raw)).value)| <= |raw| + 1
    decreases |raw|
  {
    hide Strip, Assignment, AllPrintable;
    if raw != [] {
      var n := LineLength(raw);
      var line := raw[..n];
      StripFacts(line);
      var rest := if n < |raw| then raw[n + 1..] else [];
      assert Lines(raw)[1..] == Lines(rest);
      RoomSuffices(rest);
      var kept := Kept(Lines(raw)).value;
      if Strip(line) != [] {
        TerminatedSplit(kept);
        assert kept[1..] == Kept(Lines(rest)).value;
      } else {
        assert kept == Kept(Lines(rest)).value;
      }
      if n == |raw| { assert Terminated([]) == []; assert Kept(Lines(rest)).value == []; }
    }
  }

  lemma {:induction false} JoinLength(kept: seq<seq<byte>>)
    requires kept != []
    ensures |Join(kept)| + 1 == |Terminated(kept)|
  {
    TerminatedSplit(kept);
    if |kept| > 1 { JoinLength(kept[1..]); } else { assert kept[1..] == []; }
  }

  /** Packing the kept lines again, joined by newlines, succeeds and gives the same block. */
  lemma {:induction false} PackingIsIdempotent(raw: seq<byte>, cap: nat)
    requires Packable(raw, cap)
    ensures var kept := Kept(Lines(raw)).value;
      Packable(Join(kept), cap) && Packed(Kept(Lines(Join(kept))).value) == Packed(kept)
  {
    hide Strip, Assignment, AllPrintable, Terminated;
    var kept := Kept(Lines(raw)).value;
    KeptFacts(Lines(raw));
    LinesOfJoin(kept);
    KeptOfKept(kept);
    JoinLength(kept);
    RoomSuffices(raw);
    JoinNonempty(kept);
  }

  lemma {:induction false} JoinNonempty(kept: seq<seq<byte>>)
    requires AllKept(kept) && kept != []
    ensures Join(kept) != []
  {
    hide Strip, AllPrintable;
    assert Assignment(kept[0]);
  }

  // ---------------------------------------------------------------- the packer

  /** The unread part of a line that starts at `from`. */
  method FindEnd(raw: seq<byte>, from: nat) returns (end: nat, clean: bool)
    requires from <= |raw|
    ensures clean == AllPrintable(raw[from..from + LineLength(raw[from..])])
    ensures clean ==> end == from + LineLength(raw[from..])
  {
    end, clean := from, true;
    while end < |raw| && raw[end] != NEWLINE
      invariant from <= end <= |raw| && AllPrintable(raw[from..end])
      invariant from + LineLength(raw[from..]) == end + LineLength(raw[end..])
    {
      assert raw[end..][1..] == raw[end + 1..];
      if !Printable(raw[end]) {
        ghost var line := raw[from..from + LineLength(raw[from..])];
        assert line[end - from] == raw[end];
        return end, false;
      }
      assert raw[from..end + 1] == raw[from..end] + [raw[end]];
      end := end + 1;
    }
  }

  method SkipBlanks(raw: seq<byte>, from: nat, end: nat) returns (lo: nat)
    requires from <= end <= |raw|
    ensures from <= lo <= end && raw[lo..end] == TrimStart(raw[from..end])
  {
    lo := from;
    while lo < end && Blank(raw[lo])
      invariant from <= lo <= end && TrimStart(raw[from..end]) == TrimStart(raw[lo..end])
    {
      assert raw[lo..end][1..] == raw[lo + 1..end];
      lo := lo + 1;
    }
  }

  method FindComment(raw: seq<byte>, lo: nat, end: nat) returns (j: nat)
    requires lo <= end <= |raw|
    ensures lo <= j <= end && raw[lo..j] == Cut(raw[lo..end])
  {
    j := lo;
    while j < end && raw[j] != HASH
      invariant lo <= j <= end && Cut(raw[lo..end]) == raw[lo..j] + Cut(raw[j..end])
    {
      assert raw[j..end][1..] == raw[j + 1..end];
      assert raw[lo..j] + ([raw[j]] + Cut(raw[j + 1..end])) == raw[lo..j + 1] + Cut(raw[j + 1..end]);
      j := j + 1;
    }
    assert raw[lo..j] + [] == raw[lo..j];
  }

  method DropTrailing(raw: seq<byte>, lo: nat, end: nat) returns (hi: nat)
    requires lo <= end <= |raw|
    ensures lo <= hi <= end && raw[lo..hi] == TrimEnd(raw[lo..end])
  {
    hi := end;
    while hi > lo && Trailing(raw[hi - 1])
      invariant lo <= hi <= end && TrimEnd(raw[lo..end]) == TrimEnd(raw[lo..hi])
    {
      assert raw[lo..hi][..hi - lo - 1] == raw[lo..hi - 1];
      hi := hi - 1;
    }
  }

  /** Strips raw[from..end] by moving both ends. */
  method FindStripped(raw: seq<byte>, from: nat, end: nat) returns (lo: nat, hi: nat)
    requires from <= end <= |raw|
    ensures from <= lo <= hi <= end && raw[lo..hi] == Strip(raw[from..end])
  {
    hide TrimStart, Cut, TrimEnd;
    lo := SkipBlanks(raw, from, end);
    hi := FindComment(raw, lo, end);
    hi := DropTrailing(raw, lo, hi);
  }

  method FindEquals(raw: seq<byte>, lo: nat, hi: nat) returns (eq: nat)
    requires lo < hi <= |raw|
    ensures lo <= eq <= hi && (lo < eq < hi <==> raw[lo] != EQUALS && EQUALS in raw[lo..hi])
  {
    eq := lo;
    while eq < hi && raw[eq] != EQUALS
      invariant lo <= eq <= hi && EQUALS !in raw[lo..eq]
    {
      eq := eq + 1;
    }
    if eq < hi { assert raw[lo..hi][eq - lo] == EQUALS; }
  }

  /** What is still to be read, after `kept` was kept. */
  ghost predicate Sofar(raw: seq<byte>, i: nat, kept: seq<seq<byte>>)
    requires i <= |raw|
  {
    var rest := Kept(Lines(raw[i..]));
    Kept(Lines(raw)) == if rest.None? then None else Some(kept + rest.value)
  }

  function NextAt(raw: seq<byte>, i: nat): (next: nat)
    requires i < |raw|
    ensures i < next <= |raw|
  {
    var n := LineLength(raw[i..]);
    if i + n < |raw| then i + n + 1 else i + n
  }

  lemma {:induction false} LinesStep(raw: seq<byte>, i: nat)
    requires i < |raw|
    ensures Lines(raw[i..]) == [raw[i..i + LineLength(raw[i..])]] + Lines(raw[NextAt(raw, i)..])
  {
    var n := LineLength(raw[i..]);
    assert raw[i..][..n] == raw[i..i + n];
    if i + n < |raw| { assert raw[i..][n + 1..] == raw[i + n + 1..]; } else { assert raw[i + n..] == []; }
  }

  lemma {:induction false} NextLine(raw: seq<byte>, i: nat, kept: seq<seq<byte>>)
    requires i < |raw| && Sofar(raw, i, kept)
    ensures var line := raw[i..i + LineLength(raw[i..])];
      && (!AllPrintable(line) || (Strip(line) != [] && !Assignment(Strip(line))) ==> Kept(Lines(raw)).None?)
      && (AllPrintable(line) && Strip(line) == [] ==> Sofar(raw, NextAt(raw, i), kept))
      && (AllPrintable(line) && Strip(line) != [] && Assignment(Strip(line)) ==>
          Sofar(raw, NextAt(raw, i), kept + [Strip(line)]))
  {
    hide Strip, Assignment, AllPrintable, Lines, NextAt;
    LinesStep(raw, i);
    var line := raw[i..i + LineLength(raw[i..])];
    var lines := Lines(raw[i..]);
    assert lines[0] == line && lines[1..] == Lines(raw[NextAt(raw, i)..]);
    var rest := Kept(lines[1..]);
    if rest.Some? {
      assert kept + ([] + rest.value) == kept + rest.value;
      assert kept + ([Strip(line)] + rest.value) == (kept + [Strip(line)]) + rest.value;
    }
  }

  lemma {:induction false} TerminatedGrows(kept: seq<seq<byte>>, more: seq<seq<byte>>)
    ensures |Terminated(kept + more)| >= |Terminated(kept)|
    decreases |more|
  {
    if more == [] {
      assert kept + more == kept;
    } else {
      assert (kept + more)[..|kept + more| - 1] == kept + more[..|more| - 1];
      TerminatedGrows(kept, more[..|more| - 1]);
    }
  }

  lemma {:induction false} NoRoom(raw: seq<byte>, i: nat, kept: seq<seq<byte>>, cap: nat)
    requires i <= |raw| && Sofar(raw, i, kept) && |Terminated(kept)| + 4 > cap
    ensures !Packable(raw, cap)
  {
    var rest := Kept(Lines(raw[i..]));
    if rest.Some? { TerminatedGrows(kept, rest.value); }
  }

  method CopyLine(out: array<byte>, used: nat, line: seq<byte>)
    requires used + |line| + 1 <= out.Length && forall k :: used <= k < out.Length ==> out[k] == 0
    modifies out
    ensures out[..used + |line| + 1] == old(out[..used]) + line + [0]
    ensures forall k :: used + |line| <= k < out.Length ==> out[k] == 0
  {
    forall k | 0 <= k < |line| { out[used + k] := line[k]; }
    ghost var want := old(out[..used]) + line + [0];
    forall k | 0 <= k < used + |line| + 1 ensures out[k] == want[k] {
      if used <= k < used + |line| { assert out[used + (k - used)] == line[k - used]; }
    }
  }

  /** CywPackNvram: succeeds exactly on a packable file, with exactly its block; zero beyond it. The checks
      after the loop never decide, and no bound subtraction underflows. */
  method Pack(raw: seq<byte>, out: array<byte>) returns (ok: bool, written: nat)
    modifies out
    ensures ok <==> Packable(raw, out.Length)
    ensures ok ==> written <= out.Length && written % 4 == 0 && written / 4 <= 65535
    ensures ok ==> out[..written] == Packed(Kept(Lines(raw)).value)
    ensures ok ==> forall k :: written <= k < out.Length ==> out[k] == 0
  {
    hide Strip, Kept, Lines, Assignment, AllPrintable, LineLength, Sofar;
    ok, written := false, 0;
    var cap := out.Length;
    if raw == [] || |raw| > FILE_MAX || cap < 8 { return; }
    forall k | 0 <= k < cap { out[k] := 0; }
    var i, used := 0, 0;
    ghost var kept := [];
    StartSofar(raw);
    while i < |raw|
      invariant i <= |raw| && Sofar(raw, i, kept)
      invariant used == |Terminated(kept)| && used + 4 <= cap && out[..used] == Terminated(kept)
      invariant used == 0 <==> kept == []
      invariant forall k :: used <= k < cap ==> out[k] == 0
    {
      NextLine(raw, i, kept);
      var end, clean := FindEnd(raw, i);
      if !clean { return; }
      var lo, hi := FindStripped(raw, i, end);
      LinePrefix(raw, i);
      var next := if end < |raw| then end + 1 else end;
      if hi > lo {
        var eq := FindEquals(raw, lo, hi);
        var line := raw[lo..hi];
        IsAssignment(line);
        if eq == lo || eq == hi || hi - lo > LINE_MAX { return; }
        LastKept(kept, line);
        if hi - lo + 1 > cap - used - 4 {
          NoRoom(raw, next, kept + [line], cap);
          return;
        }
        CopyLine(out, used, line);
        used, kept := used + (hi - lo) + 1, kept + [line];
      }
      i := next;
    }
    EndSofar(raw, kept);
    if used == 0 { return; }
    if used + 4 > cap { assert false; }
    written := Align4(used + 1);
    RoomSuffices(raw);
    if written > cap || written / 4 > 65535 { assert false; }
    assert out[..written] == out[..used] + Zeros(written - used);
    ok := true;
  }

  lemma {:induction false} StartSofar(raw: seq<byte>)
    ensures Sofar(raw, 0, []) && Terminated([]) == []
  {
    assert raw[0..] == raw;
    var rest := Kept(Lines(raw));
    if rest.Some? { assert [] + rest.value == rest.value; }
  }

  lemma {:induction false} EndSofar(raw: seq<byte>, kept: seq<seq<byte>>)
    requires Sofar(raw, |raw|, kept)
    ensures Kept(Lines(raw)) == Some(kept)
  {
    assert raw[|raw|..] == [];
    assert kept + [] == kept;
  }

  lemma {:induction false} LinePrefix(raw: seq<byte>, i: nat)
    requires i <= |raw|
    ensures i + LineLength(raw[i..]) <= |raw|
  {}

  lemma IsAssignment(l: seq<byte>)
    requires l != []
    ensures Assignment(l) <==> |l| <= LINE_MAX && l[0] != EQUALS && EQUALS in l
  {}

  lemma {:induction false} LastKept(kept: seq<seq<byte>>, line: seq<byte>)
    ensures Terminated(kept + [line]) == Terminated(kept) + line + [0]
  {
    assert (kept + [line])[..|kept|] == kept;
  }
}
