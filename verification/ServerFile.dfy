/** The server's record of a file and its text form: six fields joined by the self-overlapping delimiter. */
module ServerFile {
  import opened Wrappers

  const DELIMITER: string := "*?*"
  const UINT64_LIMIT: nat := 0x1_0000_0000_0000_0000

  /** Times are nanoseconds since the epoch; the zero time.Time is the first instant of the year 1. */
  const EPOCH: int := 0
  const ZERO_TIME: int := -62135596800 * 1_000_000_000

  /** The text form of times, left to the environment. */
  datatype TimeFormat = TimeFormat(enc: int -> Option<string>, dec: string -> Option<int>)

  /** What RFC 3339 text is assumed to give: a round trip, no delimiter character, no surrounding space, no empty form. */
  ghost predicate ValidFormat(fmt: TimeFormat) {
    && fmt.dec("") == None
    && forall t: int :: fmt.enc(t).Some? ==>
         var s := fmt.enc(t).value;
         fmt.dec(s) == Some(t) && '*' !in s && TrimSpace(s) == s
  }

  datatype Record = Record(fullPath: string, mediaPrefix: string, size: nat, currentSize: nat,
                           creationTime: int, modifiedTime: int)

  // ----- text primitives -----

  /** unicode.IsSpace. */
  predicate IsSpace(c: char) {
    c as int in {0x09, 0x0A, 0x0B, 0x0C, 0x0D, 0x20, 0x85, 0xA0, 0x1680, 0x2028, 0x2029, 0x202F, 0x205F, 0x3000}
    || 0x2000 <= c as int <= 0x200A
  }

  function TrimLeft(s: string): (r: string)
    ensures |r| <= |s|
  {
    if s != [] && IsSpace(s[0]) then TrimLeft(s[1..]) else s
  }

  function TrimRight(s: string): (r: string)
    ensures |r| <= |s|
  {
    if s != [] && IsSpace(s[|s| - 1]) then TrimRight(s[..|s| - 1]) else s
  }

  function TrimSpace(s: string): (r: string)
    ensures |r| <= |s|
  {
    TrimRight(TrimLeft(s))
  }

  lemma {:induction false} TrimLeftExact(s: string) returns (i: nat)
    ensures i <= |s| && TrimLeft(s) == s[i..] && (forall k :: 0 <= k < i ==> IsSpace(s[k])) && (i < |s| ==> !IsSpace(s[i]))
  {
    i := 0;
    if s != [] && IsSpace(s[0]) {
      var j := TrimLeftExact(s[1..]);
      i := j + 1;
      forall k | 0 <= k < i ensures IsSpace(s[k]) {
        assert k > 0 ==> s[1..][k - 1] == s[k];
      }
    }
  }

  lemma {:induction false} TrimRightExact(s: string) returns (j: nat)
    ensures j <= |s| && TrimRight(s) == s[..j] && (forall k :: j <= k < |s| ==> IsSpace(s[k])) && (j > 0 ==> !IsSpace(s[j - 1]))
  {
    j := |s|;
    if s != [] && IsSpace(s[|s| - 1]) {
      j := TrimRightExact(s[..|s| - 1]);
      assert s[..|s| - 1][..j] == s[..j];
    }
  }

  /** What is trimmed is all the space at both ends, and nothing but space. */
  lemma TrimExact(s: string) returns (i: nat, j: nat)
    ensures i <= j <= |s| && TrimSpace(s) == s[i..j]
    ensures forall k :: 0 <= k < i || j <= k < |s| ==> IsSpace(s[k])
    ensures i < j ==> !IsSpace(s[i]) && !IsSpace(s[j - 1])
  {
    i := TrimLeftExact(s);
    var n := TrimRightExact(s[i..]);
    j := i + n;
    assert s[i..][..n] == s[i..j];
    forall k | j <= k < |s| ensures IsSpace(s[k]) {
      assert s[i..][k - i] == s[k];
    }
    if n > 0 {
      assert s[i..][n - 1] == s[j - 1];
    }
  }

  /** Trimming gives back a text of the same length only if it is the same text. */
  lemma TrimSameLength(s: string)
    ensures |TrimSpace(s)| == |s| ==> TrimSpace(s) == s
  {
  }

  const DIGITS: string := "0123456789"

  function Digit(c: char): Option<nat> {
    if '0' <= c <= '9' then Some((c as int - '0' as int) as nat) else None
  }

  /** fmt.Sprintf("%d", n) */
  function Decimal(n: nat): string {
    (if n < 10 then "" else Decimal(n / 10)) + [DIGITS[n % 10]]
  }

  function DigitsValue(s: string): Option<nat> {
    if s == "" then Some(0)
    else
      var head, last := DigitsValue(s[..|s| - 1]), Digit(s[|s| - 1]);
      if head.Some? && last.Some? then Some(10 * head.value + last.value) else None
  }

  /** strconv.ParseUint(s, 10, 64) */
  function ParseUint(s: string): Option<nat> {
    if s == "" then None
    else
      var v := DigitsValue(s);
      if v.Some? && v.value < UINT64_LIMIT then v else None
  }

  lemma DigitChar(d: nat)
    requires d < 10
    ensures Digit(DIGITS[d]) == Some(d) && DIGITS[d] != '*' && !IsSpace(DIGITS[d])
  {
  }

  lemma {:induction false} DecimalValue(n: nat)
    ensures Decimal(n) != "" && DigitsValue(Decimal(n)) == Some(n)
  {
    DigitChar(n % 10);
    var head := if n < 10 then "" else Decimal(n / 10);
    if n >= 10 {
      DecimalValue(n / 10);
    }
    assert Decimal(n)[..|Decimal(n)| - 1] == head;
  }

  lemma {:induction false} DecimalChars(n: nat)
    ensures forall k :: 0 <= k < |Decimal(n)| ==> Decimal(n)[k] != '*' && !IsSpace(Decimal(n)[k])
  {
    DigitChar(n % 10);
    if n >= 10 {
      DecimalChars(n / 10);
    }
  }

  /** Every uint64 survives its decimal text. */
  lemma UintRoundTrip(n: nat)
    requires n < UINT64_LIMIT
    ensures ParseUint(TrimSpace(Decimal(n))) == Some(n)
  {
    DecimalValue(n);
    DecimalChars(n);
  }

  /** The least index at or after i where the delimiter stands, or the length. */
  function Find(s: string, i: nat): (k: nat)
    requires i <= |s|
    ensures i <= k <= |s|
    ensures k < |s| ==> DelimiterAt(s, k)
    ensures forall j :: i <= j < k ==> !DelimiterAt(s, j)
    decreases |s| - i
  {
    if DelimiterAt(s, i) || i == |s| then i else Find(s, i + 1)
  }

  predicate DelimiterAt(s: string, k: nat) {
    k + 3 <= |s| && s[k] == '*' && s[k + 1] == '?' && s[k + 2] == '*'
  }

  /** strings.Split(s, delimiter): leftmost, not overlapping. */
  function Split(s: string): (tokens: seq<string>)
    ensures tokens != []
    decreases |s|
  {
    var k := Find(s, 0);
    if k == |s| then [s] else [s[..k]] + Split(s[k + 3..])
  }

  // ----- encoding -----

  /** The six field texts of a record, or None when a time has no text form. */
  function Fields(fmt: TimeFormat, r: Record): (fields: Option<seq<string>>)
    ensures fields.Some? ==> |fields.value| == 6
  {
    var creation := if r.creationTime != EPOCH then fmt.enc(r.creationTime) else Some("");
    var modified := fmt.enc(r.modifiedTime);
    if creation == None || modified == None then None
    else Some([r.fullPath, r.mediaPrefix, Decimal(r.size), Decimal(r.currentSize), creation.value, modified.value])
  }

  /** The pieces of getStrings: the fields with a delimiter between each two. */
  function Interleave(fields: seq<string>): seq<string> {
    if |fields| <= 1 then fields else [fields[0], DELIMITER] + Interleave(fields[1..])
  }

  /** The fields joined by the delimiter. */
  function Join(fields: seq<string>): string {
    if fields == [] then "" else if |fields| == 1 then fields[0] else fields[0] + DELIMITER + Join(fields[1..])
  }

  /** The text of a record. */
  function Encode(fmt: TimeFormat, r: Record): Option<string> {
    var fields := Fields(fmt, r);
    if fields == None then None else Some(Join(fields.value))
  }

  /** The text, written out: path, prefix, size, size reached, time of creation (none for the epoch) and of modification. */
  lemma TextForm(fmt: TimeFormat, r: Record, created: string, modified: string)
    requires if r.creationTime == EPOCH then created == "" else fmt.enc(r.creationTime) == Some(created)
    requires fmt.enc(r.modifiedTime) == Some(modified)
    ensures Encode(fmt, r) ==
            Some(r.fullPath + "*?*" + (r.mediaPrefix + "*?*" + (Decimal(r.size) + "*?*" + (Decimal(r.currentSize) + "*?*"
                 + (created + "*?*" + modified)))))
  {
    JoinMore(created, [modified]);
    JoinMore(Decimal(r.currentSize), [created] + [modified]);
    JoinMore(Decimal(r.size), [Decimal(r.currentSize)] + ([created] + [modified]));
    JoinMore(r.mediaPrefix, [Decimal(r.size)] + ([Decimal(r.currentSize)] + ([created] + [modified])));
    var rest := [r.mediaPrefix] + ([Decimal(r.size)] + ([Decimal(r.currentSize)] + ([created] + [modified])));
    JoinMore(r.fullPath, rest);
    assert [r.fullPath] + rest == [r.fullPath, r.mediaPrefix, Decimal(r.size), Decimal(r.currentSize), created, modified];
  }

  lemma JoinMore(first: string, rest: seq<string>)
    requires rest != []
    ensures Join([first] + rest) == first + "*?*" + Join(rest)
  {
    assert ([first] + rest)[1..] == rest;
  }

  lemma {:induction false} InterleaveConcat(fields: seq<string>)
    ensures Concat(Interleave(fields)) == Join(fields)
  {
    if |fields| > 1 {
      var rest := Interleave(fields[1..]);
      InterleaveConcat(fields[1..]);
      assert Interleave(fields)[1..] == [DELIMITER] + rest;
      assert ([DELIMITER] + rest)[1..] == rest;
    } else if |fields| == 1 {
      assert Concat(fields[1..]) == [];
    }
  }

  lemma InterleaveCons(first: string, rest: seq<string>)
    requires rest != []
    ensures Interleave([first] + rest) == [first, DELIMITER] + Interleave(rest)
  {
    assert ([first] + rest)[1..] == rest;
  }

  lemma InterleaveThree(a: string, b: string, c: string)
    ensures Interleave([a, b, c]) == [a, DELIMITER, b, DELIMITER, c]
  {
    InterleaveCons(b, [c]);
    InterleaveCons(a, [b, c]);
    assert [b] + [c] == [b, c] && [a] + [b, c] == [a, b, c];
  }

  lemma InterleaveSix(a: string, b: string, c: string, d: string, e: string, f: string)
    ensures Interleave([a, b, c, d, e, f]) ==
            [a, DELIMITER, b, DELIMITER, c, DELIMITER, d, DELIMITER, e, DELIMITER, f]
  {
    InterleaveThree(d, e, f);
    InterleaveCons(c, [d, e, f]);
    InterleaveCons(b, [c] + [d, e, f]);
    InterleaveCons(a, [b] + ([c] + [d, e, f]));
    assert [a, b, c, d, e, f] == [a] + ([b] + ([c] + [d, e, f]));
  }

  /** UnmarshalText into a record: on an error the fields assigned before it keep their new values. */
  function Decode(fmt: TimeFormat, text: string, f: Record): (Record, bool) {
    var tokens := Split(text);
    if |tokens| != 6 then (f, false)
    else
      var f1 := f.(fullPath := TrimSpace(tokens[0]), mediaPrefix := TrimSpace(tokens[1]));
      var size := ParseUint(TrimSpace(tokens[2]));
      if size == None then (f1, false) else
      var f2 := f1.(size := size.value);
      var current := ParseUint(TrimSpace(tokens[3]));
      if current == None then (f2, false) else
      var f3 := f2.(currentSize := current.value);
      var modified := fmt.dec(TrimSpace(tokens[4]));
      if modified == None then (f3.(modifiedTime := ZERO_TIME), false) else
      var f4 := f3.(modifiedTime := modified.value);
      var creation := fmt.dec(TrimSpace(tokens[5]));
      if creation == None then (f4.(creationTime := ZERO_TIME), false) else
      (f4.(creationTime := creation.value), true)
  }

  predicate Decodes(fmt: TimeFormat, text: string) {
    Decode(fmt, text, Record("", "", 0, 0, ZERO_TIME, ZERO_TIME)).1
  }

  // ----- which fields survive -----

  /** The delimiter cannot be seen before the end of a field that is followed by it. */
  predicate Separable(p: string) {
    && (forall k :: 0 <= k < |p| ==> !DelimiterAt(p, k))
    && !(2 <= |p| && p[|p| - 2] == '*' && p[|p| - 1] == '?')
  }

  /** A field text that comes back: separable and unchanged by trimming. */
  predicate Plain(p: string) {
    Separable(p) && TrimSpace(p) == p
  }

  lemma FindField(p: string, rest: string)
    ensures Find(p + DELIMITER + rest, 0) <= |p|
    ensures Find(p + DELIMITER + rest, 0) == |p| <==> Separable(p)
  {
    var s := p + DELIMITER + rest;
    assert DelimiterAt(s, |p|);
    var k := Find(s, 0);
    forall j | 0 <= j < |p| && DelimiterAt(p, j) ensures DelimiterAt(s, j) {
    }
    if 2 <= |p| && p[|p| - 2] == '*' && p[|p| - 1] == '?' {
      assert DelimiterAt(s, |p| - 2);
    }
    if k < |p| {
      if k + 3 <= |p| {
        assert DelimiterAt(p, k);
      } else if k + 2 == |p| {
        assert s[k] == p[k] && s[k + 1] == p[k + 1];
      }
    }
  }

  /** Splitting takes a separable field off whole, and anything else off shorter. */
  lemma SplitField(p: string, rest: string)
    ensures |Split(p + DELIMITER + rest)[0]| <= |p|
    ensures Separable(p) <==> |Split(p + DELIMITER + rest)[0]| == |p|
    ensures Separable(p) ==> Split(p + DELIMITER + rest) == [p] + Split(rest)
  {
    var s := p + DELIMITER + rest;
    FindField(p, rest);
    if Separable(p) {
      assert s[..|p|] == p && s[|p| + 3..] == rest;
    }
  }

  lemma StarFreeIsSeparable(s: string)
    requires '*' !in s
    ensures Separable(s) && Split(s) == [s]
  {
    assert Find(s, 0) == |s|;
  }

  lemma {:induction false} SplitJoin(fields: seq<string>)
    requires fields != [] && '*' !in fields[|fields| - 1]
    requires forall k :: 0 <= k < |fields| - 1 ==> Separable(fields[k])
    ensures Split(Join(fields)) == fields
  {
    if |fields| == 1 {
      StarFreeIsSeparable(fields[0]);
    } else {
      SplitJoin(fields[1..]);
      SplitField(fields[0], Join(fields[1..]));
    }
  }

  /** The tokens of a record with separable path fields are its fields. */
  lemma RecordTokens(fmt: TimeFormat, r: Record)
    requires ValidFormat(fmt) && Fields(fmt, r).Some? && Separable(r.fullPath) && Separable(r.mediaPrefix)
    ensures Split(Join(Fields(fmt, r).value)) == Fields(fmt, r).value
  {
    var fields := Fields(fmt, r).value;
    DecimalChars(r.size);
    DecimalChars(r.currentSize);
    forall k | 2 <= k < |fields| ensures Separable(fields[k]) && '*' !in fields[k] {
      StarFreeIsSeparable(fields[k]);
    }
    SplitJoin(fields);
  }

  /** The first two tokens of a record's text tell whether its first two fields are separable. */
  lemma FirstTokens(p: string, m: string, rest: seq<string>)
    requires rest != []
    ensures |Split(Join([p, m] + rest))[0]| <= |p|
    ensures Separable(p) <==> |Split(Join([p, m] + rest))[0]| == |p|
    ensures Separable(p) ==> var tokens := Split(Join([p, m] + rest));
            |tokens| > 1 && |tokens[1]| <= |m| && (Separable(m) <==> |tokens[1]| == |m|)
  {
    assert ([p, m] + rest)[1..] == [m] + rest;
    assert ([m] + rest)[1..] == rest;
    SplitField(p, Join([m] + rest));
    SplitField(m, Join(rest));
  }

  /** The record as decoding gives it back: the two times exchanged. */
  function TimesExchanged(r: Record): Record {
    r.(creationTime := r.modifiedTime, modifiedTime := r.creationTime)
  }

  /**
   * The round trip, exactly: both path fields come back if and only if both are plain, and then everything comes
   * back, the two times exchanged.
   */
  lemma RoundTripExact(fmt: TimeFormat, r: Record, into: Record)
    requires ValidFormat(fmt) && Encode(fmt, r).Some?
    requires r.size < UINT64_LIMIT && r.currentSize < UINT64_LIMIT && r.creationTime != EPOCH
    ensures var (d, ok) := Decode(fmt, Encode(fmt, r).value, into);
            && (ok && d.fullPath == r.fullPath && d.mediaPrefix == r.mediaPrefix
                <==> Plain(r.fullPath) && Plain(r.mediaPrefix))
            && (Plain(r.fullPath) && Plain(r.mediaPrefix) ==> ok && d == TimesExchanged(r))
  {
    var (d, ok) := Decode(fmt, Encode(fmt, r).value, into);
    if Plain(r.fullPath) && Plain(r.mediaPrefix) {
      PlainComesBack(fmt, r, into);
    }
    if ok && d.fullPath == r.fullPath && d.mediaPrefix == r.mediaPrefix {
      OnlyPlainComesBack(fmt, r, into);
    }
  }

  lemma PlainComesBack(fmt: TimeFormat, r: Record, into: Record)
    requires ValidFormat(fmt) && Encode(fmt, r).Some? && Plain(r.fullPath) && Plain(r.mediaPrefix)
    requires r.size < UINT64_LIMIT && r.currentSize < UINT64_LIMIT && r.creationTime != EPOCH
    ensures Decode(fmt, Encode(fmt, r).value, into) == (TimesExchanged(r), true)
  {
    var fields := Fields(fmt, r).value;
    RecordTokens(fmt, r);
    FieldsParse(fmt, r, fields);
    DecodedRecord(fmt, Join(fields), fields, r, into);
  }

  /** Every field of a plain record but the epoch parses back. */
  lemma FieldsParse(fmt: TimeFormat, r: Record, fields: seq<string>)
    requires ValidFormat(fmt) && Fields(fmt, r) == Some(fields) && Plain(r.fullPath) && Plain(r.mediaPrefix)
    requires r.size < UINT64_LIMIT && r.currentSize < UINT64_LIMIT && r.creationTime != EPOCH
    ensures |fields| == 6 && TrimSpace(fields[0]) == r.fullPath && TrimSpace(fields[1]) == r.mediaPrefix
    ensures ParseUint(TrimSpace(fields[2])) == Some(r.size) && ParseUint(TrimSpace(fields[3])) == Some(r.currentSize)
    ensures fmt.dec(TrimSpace(fields[4])) == Some(r.creationTime) && fmt.dec(TrimSpace(fields[5])) == Some(r.modifiedTime)
  {
    UintRoundTrip(r.size);
    UintRoundTrip(r.currentSize);
  }

  /** A text whose tokens parse to a record's values decodes to it, with the fifth token as the modification time. */
  lemma DecodedRecord(fmt: TimeFormat, text: string, tokens: seq<string>, r: Record, into: Record)
    requires Split(text) == tokens && |tokens| == 6 && TrimSpace(tokens[0]) == r.fullPath
    requires TrimSpace(tokens[1]) == r.mediaPrefix
    requires ParseUint(TrimSpace(tokens[2])) == Some(r.size) && ParseUint(TrimSpace(tokens[3])) == Some(r.currentSize)
    requires fmt.dec(TrimSpace(tokens[4])) == Some(r.creationTime)
    requires fmt.dec(TrimSpace(tokens[5])) == Some(r.modifiedTime)
    ensures Decode(fmt, text, into) == (TimesExchanged(r), true)
  {
  }

  lemma OnlyPlainComesBack(fmt: TimeFormat, r: Record, into: Record)
    requires Encode(fmt, r).Some?
    requires var (d, ok) := Decode(fmt, Encode(fmt, r).value, into);
             ok && d.fullPath == r.fullPath && d.mediaPrefix == r.mediaPrefix
    ensures Plain(r.fullPath) && Plain(r.mediaPrefix)
  {
    var fields := Fields(fmt, r).value;
    var tokens := Split(Join(fields));
    assert fields == [r.fullPath, r.mediaPrefix] + fields[2..];
    FirstTokens(r.fullPath, r.mediaPrefix, fields[2..]);
    DecodedPaths(fmt, Join(fields), tokens, into);
    TrimSameLength(tokens[0]);
    TrimSameLength(tokens[1]);
  }

  lemma DecodedPaths(fmt: TimeFormat, text: string, tokens: seq<string>, into: Record)
    requires tokens == Split(text) && Decode(fmt, text, into).1
    ensures |tokens| == 6
    ensures Decode(fmt, text, into).0.fullPath == TrimSpace(tokens[0])
    ensures Decode(fmt, text, into).0.mediaPrefix == TrimSpace(tokens[1])
  {
  }

  /** What decoding leaves behind, error or not: nothing of other than six fields, and of six at least both paths. */
  lemma DecodeLeaves(fmt: TimeFormat, text: string, into: Record)
    ensures var (tokens, d) := (Split(text), Decode(fmt, text, into).0);
            if |tokens| != 6 then d == into && !Decode(fmt, text, into).1
            else
              && d.fullPath == TrimSpace(tokens[0]) && d.mediaPrefix == TrimSpace(tokens[1])
              && (ParseUint(TrimSpace(tokens[2])) == None ==>
                    d == into.(fullPath := d.fullPath, mediaPrefix := d.mediaPrefix))
              && (ParseUint(TrimSpace(tokens[2])).Some? ==> d.size == ParseUint(TrimSpace(tokens[2])).value)
  {
  }

  /** A stored text decodes, for plain paths, exactly when the creation time is not the epoch. */
  lemma StoredRecordDecodes(fmt: TimeFormat, r: Record)
    requires ValidFormat(fmt) && Encode(fmt, r).Some?
    requires r.size < UINT64_LIMIT && r.currentSize < UINT64_LIMIT && Plain(r.fullPath) && Plain(r.mediaPrefix)
    ensures Decodes(fmt, Encode(fmt, r).value) <==> r.creationTime != EPOCH
  {
    var fields := Fields(fmt, r).value;
    RecordTokens(fmt, r);
    UintRoundTrip(r.size);
    UintRoundTrip(r.currentSize);
    assert fmt.dec(TrimSpace(fields[5])) == Some(r.modifiedTime);
    assert fmt.dec(TrimSpace(fields[4])).Some? <==> r.creationTime != EPOCH by {
      assert TrimSpace("") == "";
    }
    DecodeSucceeds(fmt, Join(fields), fields);
  }

  lemma DecodeSucceeds(fmt: TimeFormat, text: string, tokens: seq<string>)
    requires Split(text) == tokens && |tokens| == 6
    ensures Decodes(fmt, text) <==>
            && ParseUint(TrimSpace(tokens[2])).Some? && ParseUint(TrimSpace(tokens[3])).Some?
            && fmt.dec(TrimSpace(tokens[4])).Some? && fmt.dec(TrimSpace(tokens[5])).Some?
  {
  }

  /** A path without a delimiter that does not come back: its end and the delimiter overlap. */
  lemma OverlapBreaksRoundTrip(fmt: TimeFormat, r: Record, into: Record)
    requires ValidFormat(fmt) && Encode(fmt, r).Some? && r.creationTime != EPOCH
    requires r.fullPath == "a*?" && r.mediaPrefix == "m" && r.size < UINT64_LIMIT && r.currentSize < UINT64_LIMIT
    ensures forall k :: 0 <= k < |r.fullPath| ==> !DelimiterAt(r.fullPath, k)
    ensures var (d, ok) := Decode(fmt, Encode(fmt, r).value, into);
            ok ==> d.fullPath != r.fullPath || d.mediaPrefix != r.mediaPrefix
  {
    assert r.fullPath[1] == '*' && r.fullPath[2] == '?';
    RoundTripExact(fmt, r, into);
  }

  // ----- the record object -----

  /** The fields of the server's File that its text form carries. */
  class File {
    var fullPath: string
    var mediaPrefix: string
    var size: nat
    var currentSize: nat
    var creationTime: int
    var modifiedTime: int

    ghost function View(): Record
      reads this
    {
      Record(fullPath, mediaPrefix, size, currentSize, creationTime, modifiedTime)
    }

    constructor (r: Record)
      ensures View() == r
    {
      fullPath, mediaPrefix, size, currentSize := r.fullPath, r.mediaPrefix, r.size, r.currentSize;
      creationTime, modifiedTime := r.creationTime, r.modifiedTime;
    }

    method GetStrings(fmt: TimeFormat) returns (pieces: Option<seq<string>>)
      ensures pieces.Some? <==> Fields(fmt, View()).Some?
      ensures pieces.Some? ==> pieces.value == Interleave(Fields(fmt, View()).value)
    {
      var creation := Some("");
      if creationTime != EPOCH {
        creation := fmt.enc(creationTime);
        if creation == None {
          return None;
        }
      }
      var modified := fmt.enc(modifiedTime);
      if modified == None {
        return None;
      }
      InterleaveSix(fullPath, mediaPrefix, Decimal(size), Decimal(currentSize), creation.value, modified.value);
      pieces := Some([fullPath, DELIMITER, mediaPrefix, DELIMITER, Decimal(size), DELIMITER, Decimal(currentSize),
                      DELIMITER, creation.value, DELIMITER, modified.value]);
    }

    /** Two passes: the array is sized from the pieces, then filled piece by piece. */
    method MarshalText(fmt: TimeFormat) returns (text: Option<array<char>>)
      ensures text.Some? <==> Encode(fmt, View()).Some?
      ensures text.Some? ==> fresh(text.value) && text.value[..] == Encode(fmt, View()).value
    {
      var pieces := GetStrings(fmt);
      if pieces == None {
        return None;
      }
      var filled := FillBuffer(pieces.value);
      InterleaveConcat(Fields(fmt, View()).value);
      text := Some(filled);
    }

    /** Assigns field after field; an error leaves the fields assigned before it. */
    method UnmarshalText(fmt: TimeFormat, text: string) returns (ok: bool)
      modifies this
      ensures (View(), ok) == Decode(fmt, text, old(View()))
    {
      var tokens := Split(text);
      if |tokens| != 6 {
        return false;
      }
      fullPath := TrimSpace(tokens[0]);
      mediaPrefix := TrimSpace(tokens[1]);
      var parsed := ParseUint(TrimSpace(tokens[2]));
      if parsed == None {
        return false;
      }
      size := parsed.value;
      parsed := ParseUint(TrimSpace(tokens[3]));
      if parsed == None {
        return false;
      }
      currentSize := parsed.value;
      modifiedTime := ZERO_TIME;
      var time := fmt.dec(TrimSpace(tokens[4]));
      if time == None {
        return false;
      }
      modifiedTime := time.value;
      creationTime := ZERO_TIME;
      time := fmt.dec(TrimSpace(tokens[5]));
      if time == None {
        return false;
      }
      creationTime := time.value;
      ok := true;
    }
  }

  lemma {:induction false} ConcatLengthTake(pieces: seq<string>, k: nat)
    requires k < |pieces|
    ensures |Concat(pieces[..k])| + |pieces[k]| <= |Concat(pieces)|
    decreases |pieces|
  {
    var last := |pieces| - 1;
    ConcatTake(pieces, last);
    assert pieces[..last + 1] == pieces;
    if k < last {
      ConcatLengthTake(pieces[..last], k);
      assert pieces[..last][..k] == pieces[..k];
    }
  }

  /** The two loops of MarshalText: the array has exactly the length of all pieces and holds their concatenation. */
  method FillBuffer(pieces: seq<string>) returns (text: array<char>)
    ensures fresh(text) && text[..] == Concat(pieces)
  {
    var marshalSize := 0;
    for k := 0 to |pieces|
      invariant marshalSize == |Concat(pieces[..k])|
    {
      ConcatTake(pieces, k);
      marshalSize := marshalSize + |pieces[k]|;
    }
    assert pieces[..|pieces|] == pieces;
    text := new char[marshalSize];
    var currentCopy := 0;
    for k := 0 to |pieces|
      invariant currentCopy == |Concat(pieces[..k])| <= text.Length
      invariant text[..currentCopy] == Concat(pieces[..k])
    {
      ConcatTake(pieces, k);
      ConcatLengthTake(pieces, k);
      forall j | 0 <= j < |pieces[k]| {
        text[currentCopy + j] := pieces[k][j];
      }
      assert text[..currentCopy + |pieces[k]|] == text[..currentCopy] + pieces[k];
      currentCopy := currentCopy + |pieces[k]|;
    }
  }
}
