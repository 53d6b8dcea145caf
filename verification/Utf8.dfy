/** Byte strings as UTF-8 (sections 3 and 4 of RFC 3629), the message limit and the filename sanitiser. */
module Utf8 {
  import opened Bytes

  type Text = seq<byte>

  predicate Continuation(b: byte) {
    0x80 <= b < 0xC0
  }

  predicate ContinuationAt(s: Text, i: nat) {
    i < |s| && Continuation(s[i])
  }

  /** Second bytes allowed after a lead byte: no overlong forms, no surrogates, nothing above U+10FFFF. */
  predicate SecondOk(lead: byte, second: byte) {
    if lead == 0xE0 then 0xA0 <= second < 0xC0
    else if lead == 0xED then 0x80 <= second < 0xA0
    else if lead == 0xF0 then 0x90 <= second < 0xC0
    else if lead == 0xF4 then 0x80 <= second < 0x90
    else Continuation(second)
  }

  /** Length of the character at the start of s; 0 when there is none. */
  function CharLen(s: Text): (n: nat)
    ensures n <= |s| && n <= 4
  {
    if s == [] then 0
    else if s[0] < 0x80 then 1
    else if |s| < 2 || s[0] < 0xC2 || s[0] > 0xF4 || !SecondOk(s[0], s[1]) then 0
    else if s[0] < 0xE0 then 2
    else if !ContinuationAt(s, 2) then 0
    else if s[0] < 0xF0 then 3
    else if !ContinuationAt(s, 3) then 0
    else 4
  }

  predicate Valid(s: Text) {
    s == [] || (CharLen(s) > 0 && Valid(s[CharLen(s)..]))
  }

  /** isUTF8Start: not a continuation byte. */
  predicate IsStart(b: byte) {
    !Continuation(b)
  }

  /** A character is its lead byte and continuation bytes, and depends on nothing behind it. */
  lemma CharShape(s: Text, t: Text)
    requires CharLen(s) > 0
    ensures IsStart(s[0]) && forall i :: 1 <= i < CharLen(s) ==> Continuation(s[i])
    ensures CharLen(s[..CharLen(s)] + t) == CharLen(s)
  {
    var n := CharLen(s);
    var u := s[..n] + t;
    assert forall i :: 0 <= i < n ==> u[i] == s[i];
  }

  lemma Glue(s: Text, n: nat)
    requires n <= |s|
    ensures s[..n] + s[n..] == s && s[..n] + [] == s[..n]
  {
  }

  lemma HeadAndRest(s: Text)
    requires Valid(s) && s != []
    ensures var n := CharLen(s); n > 0 && CharLen(s[..n]) == n && Valid(s[n..]) && s == s[..n] + s[n..]
  {
    CharShape(s, []);
    Glue(s, CharLen(s));
  }

  /** A valid text is a character followed by a valid text. */
  lemma Prepend(head: Text, rest: Text)
    requires head != [] && CharLen(head) == |head| && Valid(rest)
    ensures Valid(head + rest)
  {
    CharShape(head, rest);
    assert head[..|head|] == head && (head + rest)[|head|..] == rest;
  }

  lemma FirstChar(s: Text, i: nat)
    requires CharLen(s) > 0 && 0 < i < |s| && IsStart(s[i])
    ensures CharLen(s) <= i && CharLen(s[..CharLen(s)]) == CharLen(s)
  {
    CharShape(s, []);
    assert s[..CharLen(s)] + [] == s[..CharLen(s)];
  }

  lemma Rejoin(head: Text, rest: Text, j: nat)
    requires head != [] && CharLen(head) == |head| && j <= |rest| && Valid(rest[..j]) && Valid(rest[j..])
    ensures Valid((head + rest)[..|head| + j]) && Valid((head + rest)[|head| + j..])
  {
    Prepend(head, rest[..j]);
    assert (head + rest)[..|head| + j] == head + rest[..j];
    assert (head + rest)[|head| + j..] == rest[j..];
  }

  /** A start byte inside a valid text is a boundary. */
  lemma {:induction false} SplitAtStart(s: Text, i: nat)
    requires Valid(s) && i < |s| && IsStart(s[i])
    ensures Valid(s[..i]) && Valid(s[i..])
    decreases |s|
  {
    if i == 0 {
      assert s[0..] == s;
    } else {
      var head, rest := s[..CharLen(s)], s[CharLen(s)..];
      FirstChar(s, i);
      var j := i - |head|;
      SplitAtStart(rest, j);
      Rejoin(head, rest, j);
      assert s == head + rest;
    }
  }

  /** Among any four consecutive bytes of a valid text there is a start. */
  lemma {:induction false} StartWithinFour(s: Text, i: nat)
    requires Valid(s) && i + 3 < |s|
    ensures IsStart(s[i]) || IsStart(s[i + 1]) || IsStart(s[i + 2]) || IsStart(s[i + 3])
    decreases |s|
  {
    var n := CharLen(s);
    CharShape(s, []);
    if i >= n {
      StartWithinFour(s[n..], i - n);
    } else if n <= i + 3 {
      assert CharLen(s[n..]) > 0;
      CharShape(s[n..], []);
    }
  }

  lemma {:induction false} ValidConcat(a: Text, b: Text)
    requires Valid(a) && Valid(b)
    ensures Valid(a + b)
    decreases |a|
  {
    if a == [] {
      assert a + b == b;
    } else {
      var n := CharLen(a);
      CharShape(a, a[n..] + b);
      assert a[..n] + (a[n..] + b) == a + b;
      ValidConcat(a[n..], b);
      assert (a + b)[n..] == a[n..] + b;
    }
  }

  /** Bytes as the text of a column. */
  function Column(s: Text): (c: string)
    ensures |c| == |s| && forall i :: 0 <= i < |s| ==> c[i] as int == s[i]
  {
    seq(|s|, i requires 0 <= i < |s| => s[i] as char)
  }

  // ---- truncateMessage ----

  const MESSAGE_LIMIT := 500
  const ELLIPSIS: Text := [0xE2, 0x80, 0xA6]

  lemma EllipsisIsValid()
    ensures Valid(ELLIPSIS)
  {
    assert CharLen(ELLIPSIS) == 3 && ELLIPSIS[3..] == [];
  }

  /** The nearest place at or before i where a character starts. */
  function CutPoint(msg: Text, i: nat): (cut: nat)
    requires i < |msg|
    ensures cut <= i && (cut == 0 || IsStart(msg[cut])) && forall j :: cut < j <= i ==> !IsStart(msg[j])
  {
    if i == 0 || IsStart(msg[i]) then i else CutPoint(msg, i - 1)
  }

  function Shortened(msg: Text): Text {
    if |msg| <= MESSAGE_LIMIT then msg else msg[..CutPoint(msg, MESSAGE_LIMIT)] + ELLIPSIS
  }

  /** truncateMessage: a short message stays; a long one is cut before byte 500 at the nearest start byte
      and gets an ellipsis. Valid text stays valid and loses at most three bytes below the limit. */
  method TruncateMessage(msg: Text) returns (r: Text)
    ensures r == Shortened(msg)
    ensures |msg| > 500 && Valid(msg) ==> Valid(msg[..|r| - 3]) && |r| - 3 >= 497
    ensures |r| <= 503 && (|msg| <= 500 ==> r == msg)
    ensures |msg| > 500 ==>
      && var cut := |r| - 3;
      && 0 <= cut <= 500 && r == msg[..cut] + [0xE2, 0x80, 0xA6]
      && (cut > 0 ==> !(0x80 <= msg[cut] < 0xC0)) && forall j :: cut < j <= 500 ==> 0x80 <= msg[j] < 0xC0
    ensures Valid(msg) ==> Valid(r)
  {
    if |msg| <= MESSAGE_LIMIT {
      return msg;
    }
    var cut := MESSAGE_LIMIT;
    while cut > 0 && !IsStart(msg[cut])
      invariant 0 <= cut <= MESSAGE_LIMIT && CutPoint(msg, cut) == CutPoint(msg, MESSAGE_LIMIT)
    {
      cut := cut - 1;
    }
    assert cut == CutPoint(msg, MESSAGE_LIMIT);
    assert (msg[..cut] + ELLIPSIS)[..cut] == msg[..cut];
    if Valid(msg) {
      StartWithinFour(msg, MESSAGE_LIMIT - 3);
      SplitAtStart(msg, cut);
      EllipsisIsValid();
      ValidConcat(msg[..cut], ELLIPSIS);
    }
    return msg[..cut] + ELLIPSIS;
  }

  // ---- Characters by their numbers ----

  /** Code points that have an encoding: up to U+10FFFF, without the surrogates. */
  predicate Scalar(c: int) {
    0 <= c < 0xD800 || 0xE000 <= c <= 0x10FFFF
  }

  function EncodeChar(c: int): (s: Text)
    requires Scalar(c)
    ensures 1 <= |s| <= 4
  {
    if c < 0x80 then [c]
    else if c < 0x800 then [0xC0 + c / 0x40, 0x80 + c % 0x40]
    else if c < 0x10000 then [0xE0 + c / 0x40 / 0x40, 0x80 + c / 0x40 % 0x40, 0x80 + c % 0x40]
    else [0xF0 + c / 0x40 / 0x40 / 0x40, 0x80 + c / 0x40 / 0x40 % 0x40, 0x80 + c / 0x40 % 0x40, 0x80 + c % 0x40]
  }

  predicate Scalars(cs: seq<int>) {
    forall i :: 0 <= i < |cs| ==> Scalar(cs[i])
  }

  function EncodeAll(cs: seq<int>): Text
    requires Scalars(cs)
  {
    if cs == [] then [] else EncodeChar(cs[0]) + EncodeAll(cs[1..])
  }

  /** The bits the continuation bytes before position n add to those before them. */
  function Bits(lead: int, s: Text, n: nat): int
    requires 1 <= n <= |s|
  {
    if n == 1 then lead else Bits(lead, s, n - 1) * 0x40 + (s[n - 1] as int - 0x80)
  }

  /** The number of the character at the start of s. */
  function DecodeChar(s: Text): int
    requires CharLen(s) > 0
  {
    var n := CharLen(s);
    Bits(if n == 1 then s[0] as int else if n == 2 then s[0] as int - 0xC0 else if n == 3 then s[0] as int - 0xE0
         else s[0] as int - 0xF0, s, n)
  }

  lemma Shift(a: int, b: int)
    requires 0 <= b < 0x40
    ensures (a * 0x40 + b) / 0x40 == a && (a * 0x40 + b) % 0x40 == b
  {
  }

  /** Bits, position by position. */
  lemma BitsSplit(lead: int, s: Text, n: nat)
    requires 2 <= n <= |s| && Continuation(s[n - 1])
    ensures Bits(lead, s, n) / 0x40 == Bits(lead, s, n - 1) && 0x80 + Bits(lead, s, n) % 0x40 == s[n - 1]
  {
    Shift(Bits(lead, s, n - 1), s[n - 1] as int - 0x80);
  }

  lemma DecodeEncodes(s: Text)
    requires CharLen(s) > 0
    ensures Scalar(DecodeChar(s)) && EncodeChar(DecodeChar(s)) == s[..CharLen(s)]
  {
    var n := CharLen(s);
    CharShape(s, []);
    if n == 2 {
      BitsSplit(s[0] as int - 0xC0, s, 2);
    } else if n == 3 {
      BitsSplit(s[0] as int - 0xE0, s, 3);
      BitsSplit(s[0] as int - 0xE0, s, 2);
    } else if n == 4 {
      BitsSplit(s[0] as int - 0xF0, s, 4);
      BitsSplit(s[0] as int - 0xF0, s, 3);
      BitsSplit(s[0] as int - 0xF0, s, 2);
    }
  }

  lemma EncodeDecodes(c: int, rest: Text)
    requires Scalar(c)
    ensures CharLen(EncodeChar(c) + rest) == |EncodeChar(c)|
  {
  }

  lemma EncodeAllStep(c: int, cs: seq<int>)
    requires Scalar(c) && Scalars(cs)
    ensures Scalars([c] + cs) && EncodeAll([c] + cs) == EncodeChar(c) + EncodeAll(cs)
  {
    assert ([c] + cs)[1..] == cs;
  }

  /** The valid texts are exactly the encodings of sequences of code points. */
  lemma {:induction false} ValidEncodes(s: Text) returns (cs: seq<int>)
    requires Valid(s)
    ensures Scalars(cs) && s == EncodeAll(cs)
    decreases |s|
  {
    if s == [] {
      return [];
    }
    var c := DecodeChar(s);
    var rest := ValidEncodes(s[CharLen(s)..]);
    DecodeEncodes(s);
    EncodeAllStep(c, rest);
    HeadAndRest(s);
    return [c] + rest;
  }

  lemma {:induction false} EncodingIsValid(cs: seq<int>)
    requires Scalars(cs)
    ensures Valid(EncodeAll(cs))
  {
    if cs != [] {
      EncodingIsValid(cs[1..]);
      EncodeDecodes(cs[0], EncodeAll(cs[1..]));
      assert (EncodeChar(cs[0]) + EncodeAll(cs[1..]))[|EncodeChar(cs[0])|..] == EncodeAll(cs[1..]);
    }
  }

  // ---- SanitizeFilename ----

  const REPLACEMENT: Text := [0xEF, 0xBF, 0xBD]
  const MAX_FILENAME := 255

  /** strings.ToValidUTF8: each run of bytes that start no character becomes one replacement character. */
  function ToValid(s: Text, inRun: bool): Text
    decreases |s|
  {
    if s == [] then []
    else if CharLen(s) == 0 then (if inRun then [] else REPLACEMENT) + ToValid(s[1..], true)
    else s[..CharLen(s)] + ToValid(s[CharLen(s)..], false)
  }

  /** unicode.IsControl on the first character: U+0000 to U+001F and U+007F to U+009F. */
  predicate StartsWithControl(s: Text) {
    s != [] && (s[0] < 0x20 || s[0] == 0x7F || (s[0] == 0xC2 && |s| > 1 && s[1] < 0xA0))
  }

  predicate NoControls(s: Text)
    decreases |s|
  {
    s == [] || (!StartsWithControl(s) && (CharLen(s) > 0 ==> NoControls(s[CharLen(s)..])))
  }

  /** The valid text without its control characters. */
  function Printable(s: Text): Text
    requires Valid(s)
    decreases |s|
  {
    if s == [] then []
    else (if StartsWithControl(s) then [] else s[..CharLen(s)]) + Printable(s[CharLen(s)..])
  }

  /** The longest prefix of whole characters within max bytes. */
  function Cut(s: Text, max: int): Text
    decreases |s|
  {
    if s == [] || CharLen(s) == 0 || CharLen(s) > max then []
    else s[..CharLen(s)] + Cut(s[CharLen(s)..], max - CharLen(s))
  }

  function Sanitized(name: Text): Text {
    ToValidIsValid(name, false);
    Cut(Printable(ToValid(name, false)), MAX_FILENAME)
  }

  lemma {:induction false} OneChar(s: Text, rest: Text)
    requires CharLen(s) > 0 && Valid(rest)
    ensures Valid(s[..CharLen(s)] + rest)
    ensures CharLen(s[..CharLen(s)] + rest) == CharLen(s) && (s[..CharLen(s)] + rest)[CharLen(s)..] == rest
    ensures StartsWithControl(s[..CharLen(s)] + rest) == StartsWithControl(s)
  {
    CharShape(s, rest);
  }

  lemma {:induction false} ToValidIsValid(s: Text, inRun: bool)
    ensures Valid(ToValid(s, inRun))
    decreases |s|
  {
    if s != [] {
      if CharLen(s) == 0 {
        ToValidIsValid(s[1..], true);
        assert CharLen(REPLACEMENT) == 3 && REPLACEMENT[..3] == REPLACEMENT;
        OneChar(REPLACEMENT, ToValid(s[1..], true));
        assert [] + ToValid(s[1..], true) == ToValid(s[1..], true);
      } else {
        ToValidIsValid(s[CharLen(s)..], false);
        OneChar(s, ToValid(s[CharLen(s)..], false));
      }
    }
  }

  lemma {:induction false} ToValidOfValid(s: Text)
    requires Valid(s)
    ensures ToValid(s, false) == s
    decreases |s|
  {
    if s != [] {
      ToValidOfValid(s[CharLen(s)..]);
      Glue(s, CharLen(s));
    }
  }

  lemma PrintableStep(s: Text)
    requires Valid(s) && s != []
    ensures CharLen(s) > 0 && Valid(s[CharLen(s)..])
    ensures Printable(s) == if StartsWithControl(s) then Printable(s[CharLen(s)..])
        else s[..CharLen(s)] + Printable(s[CharLen(s)..])
  {
    if StartsWithControl(s) { assert Printable(s) == [] + Printable(s[CharLen(s)..]); }
  }

  lemma {:induction false} PrintableIsClean(s: Text)
    requires Valid(s)
    ensures Valid(Printable(s)) && NoControls(Printable(s))
    decreases |s|
  {
    if s != [] {
      PrintableIsClean(s[CharLen(s)..]);
      PrintableStep(s);
      if !StartsWithControl(s) { OneChar(s, Printable(s[CharLen(s)..])); }
    }
  }

  lemma {:induction false} PrintableKeeps(s: Text)
    requires Valid(s) && NoControls(s)
    ensures Printable(s) == s
    decreases |s|
  {
    if s != [] {
      PrintableKeeps(s[CharLen(s)..]);
      PrintableStep(s);
      Glue(s, CharLen(s));
    }
  }

  lemma BehindHead(head: Text, rest: Text, r: Text)
    requires r <= rest
    ensures head + r <= head + rest && (head + rest)[|head + r|..] == rest[|r|..]
  {
  }

  lemma {:induction false} CutIsClean(s: Text, max: int)
    requires Valid(s) && NoControls(s)
    ensures Valid(Cut(s, max)) && NoControls(Cut(s, max))
    decreases |s|
  {
    var n := CharLen(s);
    if s != [] && n <= max {
      CutIsClean(s[n..], max - n);
      OneChar(s, Cut(s[n..], max - n));
    }
  }

  /** What is left of s after the cut r. */
  predicate Remainder(s: Text, r: Text, max: int) {
    && r <= s && |r| <= max && Valid(s[|r|..])
    && (r != s ==> CharLen(s[|r|..]) > max - |r|)
  }

  /** Cut keeps a prefix; it keeps everything that fits, and stops only where the next character does not. */
  lemma {:induction false} CutShape(s: Text, max: int)
    requires Valid(s) && max >= 0
    ensures Remainder(s, Cut(s, max), max)
    ensures |s| <= max ==> Cut(s, max) == s
    decreases |s|
  {
    var n := CharLen(s);
    if s != [] && n <= max {
      var head, rest := s[..n], s[n..];
      CutShape(rest, max - n);
      BehindHead(head, rest, Cut(rest, max - n));
      assert s == head + rest;
    } else {
      assert s[0..] == s;
    }
  }

  /** The result is valid, short and free of control characters; it is a prefix of the repaired, printable
      name that ends only where the next character would not fit. */
  lemma SanitizedShape(name: Text)
    ensures Valid(ToValid(name, false))
    ensures var all := Printable(ToValid(name, false)); var r := Sanitized(name);
      && Valid(r) && |r| <= 255 && NoControls(r) && NoControlBytes(r) && r <= all
      && (r != all ==> CharLen(all[|r|..]) > 255 - |r|)
  {
    ToValidIsValid(name, false);
    PrintableIsClean(ToValid(name, false));
    CutIsClean(Printable(ToValid(name, false)), MAX_FILENAME);
    CutShape(Printable(ToValid(name, false)), MAX_FILENAME);
    CleanBytes(Sanitized(name));
  }

  /** Exactly the names that are already clean are left as they are. */
  lemma SanitizedFixes(name: Text)
    ensures Sanitized(name) == name <==> Valid(name) && NoControlBytes(name) && |name| <= 255
  {
    SanitizedShape(name);
    if Valid(name) { CleanBytes(name); }
    if Valid(name) && NoControls(name) && |name| <= MAX_FILENAME {
      ToValidOfValid(name);
      PrintableKeeps(name);
      CutShape(name, MAX_FILENAME);
    }
  }

  lemma SanitizeIsIdempotent(name: Text)
    ensures Sanitized(Sanitized(name)) == Sanitized(name)
  {
    SanitizedShape(name);
    SanitizedFixes(Sanitized(name));
  }

  // ---- What the sanitiser takes out, by numbers ----

  /** No byte of a control character: none below 0x20, no 0x7F, and no 0xC2 before a byte below 0xA0. */
  predicate NoControlBytes(s: Text) {
    && (forall i :: 0 <= i < |s| ==> s[i] >= 0x20 && s[i] != 0x7F)
    && (forall i :: 0 <= i < |s| - 1 && s[i] == 0xC2 ==> s[i + 1] >= 0xA0)
  }

  lemma CleanChar(head: Text)
    requires head != [] && CharLen(head) == |head|
    ensures head[|head| - 1] != 0xC2 && (StartsWithControl(head) <==> !NoControlBytes(head))
  {
    CharShape(head, []);
  }

  lemma CleanJoin(head: Text, rest: Text)
    requires head != [] && head[|head| - 1] != 0xC2
    ensures NoControlBytes(head + rest) <==> NoControlBytes(head) && NoControlBytes(rest)
  {
    var all, n := head + rest, |head|;
    if NoControlBytes(all) {
      assert forall i :: 0 <= i < n ==> head[i] == all[i];
      assert forall i :: 0 <= i < |rest| ==> rest[i] == all[n + i];
    }
  }

  lemma {:induction false} CleanBytes(s: Text)
    requires Valid(s)
    ensures NoControls(s) <==> NoControlBytes(s)
    decreases |s|
  {
    if s != [] {
      var head, rest := s[..CharLen(s)], s[CharLen(s)..];
      HeadAndRest(s);
      CleanBytes(rest);
      CleanChar(head);
      CleanJoin(head, rest);
      OneChar(s, rest);
      assert StartsWithControl(head) == StartsWithControl(s);
    }
  }

  predicate Control(c: int) {
    0 <= c < 0x20 || 0x7F <= c < 0xA0
  }

  function WithoutControls(cs: seq<int>): seq<int> {
    if cs == [] then []
    else (if Control(cs[0]) then [] else [cs[0]]) + WithoutControls(cs[1..])
  }

  /** Printing keeps every character but the control characters, in order. */
  lemma {:induction false} PrintableFilters(cs: seq<int>)
    requires Scalars(cs)
    ensures Scalars(WithoutControls(cs)) && Valid(EncodeAll(cs))
    ensures Printable(EncodeAll(cs)) == EncodeAll(WithoutControls(cs))
  {
    EncodingIsValid(cs);
    if cs != [] {
      var c, rest := cs[0], EncodeAll(cs[1..]);
      PrintableFilters(cs[1..]);
      EncodeDecodes(c, rest);
      PrintableStep(EncodeAll(cs));
      assert (EncodeChar(c) + rest)[..|EncodeChar(c)|] == EncodeChar(c);
      assert (EncodeChar(c) + rest)[|EncodeChar(c)|..] == rest;
      if Control(c) {
        assert WithoutControls(cs) == WithoutControls(cs[1..]);
      } else {
        assert WithoutControls(cs) == [c] + WithoutControls(cs[1..]);
        EncodeAllStep(c, WithoutControls(cs[1..]));
      }
    }
  }

  lemma ToValidStep(head: Text, rest: Text)
    requires head != [] && CharLen(head) == |head|
    ensures ToValid(head + rest, false) == head + ToValid(rest, false)
  {
    CharShape(head, rest);
    assert head[..|head|] + rest == head + rest;
    assert (head + rest)[..|head|] == head && (head + rest)[|head|..] == rest;
  }

  /** In front of a valid text nothing is repaired; a run of bytes that start no character becomes one U+FFFD. */
  lemma {:induction false} ToValidRepairs(a: Text, bad: Text, b: Text)
    requires Valid(a) && forall i :: 0 <= i < |bad| ==> CharLen((bad + b)[i..]) == 0
    requires b == [] || CharLen(b) > 0
    ensures ToValid(a + (bad + b), false) ==
        a + ((if bad == [] then [] else [0xEF, 0xBF, 0xBD]) + ToValid(b, false))
    decreases |a|
  {
    var rest := bad + b;
    if a == [] {
      RunRepairs(bad, b, false);
      assert a + rest == rest;
    } else {
      var head, tail := a[..CharLen(a)], a[CharLen(a)..];
      var repaired := (if bad == [] then [] else [0xEF, 0xBF, 0xBD]) + ToValid(b, false);
      HeadAndRest(a);
      ToValidRepairs(tail, bad, b);
      ToValidStep(head, tail + rest);
      Regroup(head, tail, rest);
      Regroup(head, tail, repaired);
    }
  }

  lemma {:induction false} RunRepairs(bad: Text, b: Text, inRun: bool)
    requires forall i :: 0 <= i < |bad| ==> CharLen((bad + b)[i..]) == 0
    requires b == [] || CharLen(b) > 0
    ensures ToValid(bad + b, inRun) ==
        (if bad == [] || inRun then [] else [0xEF, 0xBF, 0xBD]) + ToValid(b, bad != [] || inRun)
    ensures ToValid(b, true) == ToValid(b, false)
    decreases |bad|
  {
    if bad == [] {
      assert bad + b == b && [] + ToValid(b, inRun) == ToValid(b, inRun);
    } else {
      assert (bad + b)[0..] == bad + b && (bad + b)[1..] == bad[1..] + b;
      forall i | 0 <= i < |bad[1..]| ensures CharLen((bad[1..] + b)[i..]) == 0 {
        assert (bad[1..] + b)[i..] == (bad + b)[i + 1..];
      }
      RunRepairs(bad[1..], b, true);
      assert [] + ToValid(b, true) == ToValid(b, true);
    }
  }

  /** What the loop still has to append when `valid` is left and `room` bytes are free. */
  function Outstanding(valid: Text, room: int): Text
    requires Valid(valid)
  {
    Cut(Printable(valid), room)
  }

  lemma CutOfHead(head: Text, rest: Text, room: int)
    requires head != [] && CharLen(head + rest) == |head|
    ensures Cut(head + rest, room) == if |head| > room then [] else head + Cut(rest, room - |head|)
  {
    assert (head + rest)[..|head|] == head && (head + rest)[|head|..] == rest;
  }

  lemma OutstandingStep(s: Text, room: int)
    requires Valid(s) && s != []
    ensures CharLen(s) > 0 && Valid(s[CharLen(s)..])
    ensures Outstanding(s, room) ==
      if StartsWithControl(s) then Outstanding(s[CharLen(s)..], room)
      else if CharLen(s) > room then []
      else s[..CharLen(s)] + Outstanding(s[CharLen(s)..], room - CharLen(s))
  {
    PrintableStep(s);
    if !StartsWithControl(s) {
      var after := Printable(s[CharLen(s)..]);
      CharShape(s, after);
      CutOfHead(s[..CharLen(s)], after, room);
    }
  }

  /** r is what the loop has kept so far, and what it will append from `left` completes the goal. */
  predicate Halfway(goal: Text, left: Text, r: Text) {
    Valid(left) && |r| <= MAX_FILENAME && goal == r + Outstanding(left, MAX_FILENAME - |r|)
  }

  lemma SkipChar(goal: Text, s: Text, r: Text)
    requires Halfway(goal, s, r) && s != [] && StartsWithControl(s)
    ensures CharLen(s) > 0 && Halfway(goal, s[CharLen(s)..], r)
  {
    OutstandingStep(s, MAX_FILENAME - |r|);
  }

  lemma StopHere(goal: Text, s: Text, r: Text)
    requires Halfway(goal, s, r) && s != [] && !StartsWithControl(s) && |r| + CharLen(s) > MAX_FILENAME
    ensures goal == r
  {
    OutstandingStep(s, MAX_FILENAME - |r|);
    Regroup(r, [], []);
  }

  lemma TakeChar(goal: Text, s: Text, r: Text)
    requires Halfway(goal, s, r) && s != [] && !StartsWithControl(s) && |r| + CharLen(s) <= MAX_FILENAME
    ensures CharLen(s) > 0 && Halfway(goal, s[CharLen(s)..], r + s[..CharLen(s)])
  {
    var n := CharLen(s);
    OutstandingStep(s, MAX_FILENAME - |r|);
    Regroup(r, s[..n], Outstanding(s[n..], MAX_FILENAME - |r| - n));
  }

  lemma Regroup(a: Text, b: Text, c: Text)
    ensures a + (b + c) == (a + b) + c && a + [] == a
  {
  }

  lemma Begin(name: Text)
    ensures Valid(ToValid(name, false)) && Halfway(Sanitized(name), ToValid(name, false), [])
  {
    ToValidIsValid(name, false);
  }

  /** The rune loop of SanitizeFilename. */
  method SanitizeFilename(name: Text) returns (r: Text)
    ensures r == Sanitized(name)
    ensures Valid(r) && |r| <= 255 && NoControlBytes(r)
  {
    SanitizedShape(name);
    var left := ToValid(name, false);
    ghost var goal := Sanitized(name);
    r := [];
    Begin(name);
    while left != []
      invariant Halfway(goal, left, r)
      decreases |left|
    {
      var n := CharLen(left);
      if StartsWithControl(left) {
        SkipChar(goal, left, r);
      } else {
        if |r| + n > MAX_FILENAME {
          StopHere(goal, left, r);
          return;
        }
        TakeChar(goal, left, r);
        r := r + left[..n];
      }
      left := left[n..];
    }
    Regroup(r, [], []);
  }
}
