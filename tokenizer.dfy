/**
 * The one tokenizing step every parser of device_hw_ep.c uses:
 *
 *     sscanf(input, "%20[^-]-%60s", arg, value)
 *
 * read with the rules of section 7.21.6.2 of ISO/IEC 9899:2011:
 *  - `%20[^-]` matches a NON-EMPTY run of at most 20 characters other than
 *    `-` (white space included, no skipping); an empty run is a matching
 *    failure and nothing is assigned;
 *  - the ordinary character `-` must then be the next character, otherwise
 *    scanning stops with only `arg` assigned (this is also what happens when
 *    the field was longer than 20 characters and got truncated);
 *  - `%60s` skips white space and then matches a non-empty run of at most 60
 *    non-white-space characters; reaching the end of the input first is an
 *    input failure and `value` is not assigned.
 * A buffer that sscanf does not assign keeps what it held before.
 */
module Tokenizer {
  import opened Wrappers

  /** DEV_ARG_SIZE and DEV_VALUE_SIZE: buffer sizes including the terminator. */
  const DevArgSize: nat := 21
  const DevValueSize: nat := 61

  /** The field widths of the conversions, one less than the buffer sizes. */
  const ArgWidth: nat := DevArgSize - 1
  const ValueWidth: nat := DevValueSize - 1

  /** isspace() in the "C" locale. */
  predicate IsSpace(c: char) {
    c == ' ' || c == '\t' || c == '\n' || c == '\U{000B}' || c == '\U{000C}' || c == '\r'
  }

  predicate IsDigit(c: char) {
    '0' <= c <= '9'
  }

  /** The character classes the scanner and atoi run over. */
  datatype CharClass = NotDash | NotSpace | Space | Digit

  predicate InClass(c: char, cls: CharClass) {
    match cls
    case NotDash => c != '-'
    case NotSpace => !IsSpace(c)
    case Space => IsSpace(c)
    case Digit => IsDigit(c)
  }

  /** Length of the longest prefix of `s`, at most `width` long, within class `cls`. */
  function Span(s: string, width: nat, cls: CharClass): (k: nat)
    ensures k <= width && k <= |s|
    ensures forall i :: 0 <= i < k ==> InClass(s[i], cls)
    ensures k < width && k < |s| ==> !InClass(s[k], cls)
  {
    if width == 0 || |s| == 0 || !InClass(s[0], cls) then 0
    else 1 + Span(s[1..], width - 1, cls)
  }

  /** The three facts of Span's contract determine it. */
  lemma SpanIs(s: string, width: nat, cls: CharClass, k: nat)
    requires k <= width && k <= |s|
    requires forall i :: 0 <= i < k ==> InClass(s[i], cls)
    requires k < width && k < |s| ==> !InClass(s[k], cls)
    ensures Span(s, width, cls) == k
  {
  }

  /** A string `%20[^-]` matches in full: non-empty, at most 20 characters, no `-`. */
  predicate IsField(f: string) {
    0 < |f| <= ArgWidth && forall i :: 0 <= i < |f| ==> f[i] != '-'
  }

  /** A string `%60s` matches in full: non-empty, at most 60 characters, no white space. */
  predicate IsRest(r: string) {
    0 < |r| <= ValueWidth && forall i :: 0 <= i < |r| ==> !IsSpace(r[i])
  }

  /** A field that contains no white space either, so that it can also stand inside a rest. */
  predicate IsToken(f: string) {
    IsField(f) && forall i :: 0 <= i < |f| ==> !IsSpace(f[i])
  }

  /** Which of the two receiving arguments one sscanf call assigns, and with what. */
  datatype ScanResult = ScanResult(arg: Option<string>, value: Option<string>)

  /** The first index at or after `start` that does not hold white space, or |s|. */
  function SkipSpace(s: string, start: nat): (j: nat)
    requires start <= |s|
    ensures start <= j <= |s|
    ensures forall i :: start <= i < j ==> IsSpace(s[i])
    ensures j < |s| ==> !IsSpace(s[j])
    decreases |s| - start
  {
    if start == |s| || !IsSpace(s[start]) then start else SkipSpace(s, start + 1)
  }

  /**
   * One call of sscanf(s, "%20[^-]-%60s", arg, value). `arg` is assigned the
   * longest run of characters other than `-` at the start, cut at 20; `value`
   * is assigned exactly when a `-` follows that run and some non-space
   * character comes after the `-`, and it then holds the run of non-space
   * characters that starts there, cut at 60.
   */
  function Scan(s: string): (r: ScanResult)
    ensures r.arg.None? <==> (|s| == 0 || s[0] == '-')
    ensures r.arg.Some? ==> IsField(r.arg.value) && |r.arg.value| <= |s| && r.arg.value == s[..|r.arg.value|]
    ensures r.value.Some? ==> r.arg.Some? && IsRest(r.value.value)
    ensures r.value.Some? ==> |r.arg.value| < |s| && s[|r.arg.value|] == '-'
  {
    var k := Span(s, ArgWidth, NotDash);
    if k == 0 then ScanResult(None, None)
    else if k == |s| || s[k] != '-' then ScanResult(Some(s[..k]), None)
    else
      var j := SkipSpace(s, k + 1);
      var m := Span(s[j..], ValueWidth, NotSpace);
      if m == 0 then ScanResult(Some(s[..k]), None)
      else
        var v := s[j..j + m];
        assert forall i :: 0 <= i < m ==> v[i] == s[j..][i];
        ScanResult(Some(s[..k]), Some(v))
  }

  /** `arg` is the longest run without `-`: it stops at the width, at the end of the input or at a `-`. */
  lemma ScanArgLongest(s: string)
    requires Scan(s).arg.Some?
    ensures var k := |Scan(s).arg.value|; k == ArgWidth || k == |s| || s[k] == '-'
  {
    var k := Span(s, ArgWidth, NotDash);
    assert Scan(s).arg.value == s[..k];
  }

  /** `value` is assigned exactly when a `-` follows `arg` and a non-space character comes after that `-`. */
  lemma ScanValueAssigned(s: string)
    ensures Scan(s).value.Some? <==>
      && Scan(s).arg.Some? && |Scan(s).arg.value| < |s| && s[|Scan(s).arg.value|] == '-'
      && exists i :: |Scan(s).arg.value| < i < |s| && !IsSpace(s[i])
  {
    var k := Span(s, ArgWidth, NotDash);
    if k > 0 && k < |s| && s[k] == '-' {
      assert Scan(s).arg.value == s[..k];
      var j := SkipSpace(s, k + 1);
      if j < |s| {
        assert s[j..][0] == s[j];
        assert Span(s[j..], ValueWidth, NotSpace) > 0;
      } else {
        assert forall i :: k < i < |s| ==> IsSpace(s[i]);
      }
    }
  }

  /**
   * An assigned `value` is the text after the `-` with its leading white
   * space skipped, up to the next white space or the end, cut at 60.
   */
  lemma ScanValueText(s: string)
    requires Scan(s).value.Some?
    ensures |Scan(s).arg.value| < |s|
    ensures var j := SkipSpace(s, |Scan(s).arg.value| + 1);
      var v := Scan(s).value.value;
      && j + |v| <= |s| && v == s[j..j + |v|]
      && (|v| == ValueWidth || j + |v| == |s| || IsSpace(s[j + |v|]))
  {
    var k := Span(s, ArgWidth, NotDash);
    assert Scan(s).arg.value == s[..k];
    var j := SkipSpace(s, k + 1);
    var m := Span(s[j..], ValueWidth, NotSpace);
    assert Scan(s).value.value == s[j..j + m];
    if m < ValueWidth && j + m < |s| {
      assert s[j + m] == s[j..][m];
    }
  }

  /** The contents of the `arg` and `value` buffers between two calls. */
  datatype Buffers = Buffers(arg: string, value: string)

  /** sscanf(input, "%20[^-]-%60s", arg, value): an unassigned buffer keeps its contents. */
  function ScanInto(input: string, b: Buffers): (r: Buffers)
    ensures r.arg == b.arg || IsField(r.arg)
    ensures r.value == b.value || IsRest(r.value)
    ensures (|input| == 0 || input[0] == '-') ==> r == b
  {
    var sr := Scan(input);
    Buffers(if sr.arg.Some? then sr.arg.value else b.arg,
            if sr.value.Some? then sr.value.value else b.value)
  }

  /**
   * sscanf(value, "%20[^-]-%60s", arg, value): the step every sub-parser
   * repeats, scanning the `value` buffer into itself. The whole old value is
   * read before anything is written.
   */
  function Advance(b: Buffers): Buffers {
    ScanInto(b.value, b)
  }

  /**
   * Each step consumes what it assigns: a new `arg` is a prefix of the old
   * rest, and a new rest is shorter than the old one by at least that field
   * and its `-`. A step that assigns no field changes nothing.
   */
  lemma AdvanceConsumes(b: Buffers)
    ensures var r := Advance(b);
      && (r.arg == b.arg || (IsField(r.arg) && r.arg <= b.value))
      && (r.value == b.value || (IsRest(r.value) && |r.arg| + 1 + |r.value| <= |b.value|))
      && (r == b || IsField(r.arg))
  {
    if Scan(b.value).value.Some? {
      ScanValueText(b.value);
    }
  }

  /** Round trip: a field, a `-` and a rest are split back into that field and that rest. */
  lemma {:induction false} ScanSplits(f: string, r: string)
    requires IsField(f) && IsRest(r)
    ensures Scan(f + "-" + r) == ScanResult(Some(f), Some(r))
  {
    var s := f + "-" + r;
    assert s[|f|] == '-';
    SpanIs(s, ArgWidth, NotDash, |f|);
    assert s[..|f|] == f;
    assert s[|f| + 1] == r[0];
    assert SkipSpace(s, |f| + 1) == |f| + 1;
    assert s[|f| + 1..] == r;
    SpanIs(r, ValueWidth, NotSpace, |r|);
    assert s[|f| + 1..|f| + 1 + |r|] == r;
  }

  /** A last field with no `-` after it: `arg` gets it and `value` is left as it was. */
  lemma {:induction false} ScanLastField(f: string)
    requires IsField(f)
    ensures Scan(f) == ScanResult(Some(f), None)
  {
    SpanIs(f, ArgWidth, NotDash, |f|);
    assert f[..|f|] == f;
  }

  /** A field followed by a `-` and nothing that `%60s` can match: `value` is left as it was. */
  lemma {:induction false} ScanEmptyRest(f: string, w: string)
    requires IsField(f)
    requires forall i :: 0 <= i < |w| ==> IsSpace(w[i])
    ensures Scan(f + "-" + w) == ScanResult(Some(f), None)
  {
    var s := f + "-" + w;
    assert s[|f|] == '-';
    SpanIs(s, ArgWidth, NotDash, |f|);
    assert s[..|f|] == f;
    ScanValueAssigned(s);
    assert forall i :: |f| < i < |s| ==> s[i] == w[i - |f| - 1];
  }

  /** White space after the `-` is skipped before `%60s` reads the rest. */
  lemma ExampleSkippedSpace()
    ensures Scan("SLIM- DEV1") == ScanResult(Some("SLIM"), Some("DEV1"))
  {
    var s := "SLIM- DEV1";
    SpanIs(s, ArgWidth, NotDash, 4);
    assert s[..4] == "SLIM";
    assert SkipSpace(s, 5) == 6;
    assert s[6..] == "DEV1";
    SpanIs("DEV1", ValueWidth, NotSpace, 4);
    assert s[6..10] == "DEV1";
  }

  /**
   * A first field longer than 20 characters is truncated to its first 20, and
   * the `-` directive then meets the 21st character and fails: `value` is
   * left as it was.
   */
  lemma {:induction false} ScanTruncates(s: string)
    requires |s| > ArgWidth
    requires forall i :: 0 <= i <= ArgWidth ==> s[i] != '-'
    ensures Scan(s) == ScanResult(Some(s[..ArgWidth]), None)
  {
    SpanIs(s, ArgWidth, NotDash, ArgWidth);
  }
}
