/**
 * The key-path reader: `reads` splits a key such as "@foo.bar\\.baz@zed" into
 * `{key, at}` segments, `isAt` asks whether the read before an index was an
 * `@` read, and `read` walks a value along the segments, stopping early at a
 * value that cannot have properties.
 */
module Reader {
  import opened Common

  /** One `{key, at}` entry of the list `reads` returns. */
  datatype Segment = Segment(key: string, at: bool)

  predicate IsSeparator(c: char)
  {
    c == '.' || c == '@'
  }

  /** Position `i` of `s` holds a separator that is not escaped by the character before it. */
  predicate SplitsAt(s: string, i: int)
  {
    0 <= i < |s| && IsSeparator(s[i]) && (i == 0 || s[i - 1] != '\\')
  }

  /** Where reading starts: after a leading `@`, if there is one. */
  function Start(key: string): nat
  {
    if |key| > 0 && key[0] == '@' then 1 else 0
  }

  /**
   * The text of the segment `s[b..e]`: a backslash followed by a separator
   * becomes a single ".", every other character is kept.
   */
  function Unescape(s: string, b: nat, e: nat): string
    requires b <= e <= |s|
    decreases e - b
  {
    if e == b then []
    else if e - b >= 2 && IsSeparator(s[e - 1]) && s[e - 2] == '\\' then Unescape(s, b, e - 2) + "."
    else Unescape(s, b, e - 1) + [s[e - 1]]
  }

  /** The first splitting position at or after `i`, or `|s|` if there is none. */
  function FirstSplit(s: string, i: nat): (j: nat)
    requires i <= |s|
    ensures i <= j <= |s|
    ensures j < |s| ==> SplitsAt(s, j)
    ensures forall k :: i <= k < j ==> !SplitsAt(s, k)
    decreases |s| - i
  {
    if i == |s| || SplitsAt(s, i) then i else FirstSplit(s, i + 1)
  }

  /**
   * Reference definition of the segments of `s` from position `b` on, the
   * first of them flagged `at`: the text up to the next unescaped separator
   * is one segment, and a segment begun by an `@` separator is an `@` segment.
   */
  function Pieces(s: string, b: nat, at: bool): seq<Segment>
    requires b <= |s|
    decreases |s| - b
  {
    var j := FirstSplit(s, b);
    [Segment(Unescape(s, b, j), at)] + if j < |s| then Pieces(s, j + 1, s[j] == '@') else []
  }

  /** What `reads(key)` returns. */
  function Tokenize(key: string): seq<Segment>
  {
    Pieces(key, Start(key), Start(key) == 1)
  }

  /** The unescaped separators of `s` at or after `i`, left to right. */
  function SeparatorsFrom(s: string, i: nat): seq<char>
    requires i <= |s|
    decreases |s| - i
  {
    if i == |s| then [] else (if SplitsAt(s, i) then [s[i]] else []) + SeparatorsFrom(s, i + 1)
  }

  /** The unescaped separators that `reads` splits `key` at. */
  function Separators(key: string): seq<char>
  {
    SeparatorsFrom(key, Start(key))
  }

  // reads (reader/reader.js:249-281)

  /** `reads(key)`: the character loop that splits a key path into segments. */
  method Reads(key: string) returns (keys: seq<Segment>)
    ensures keys == Tokenize(key)
  {
    keys := [];
    var last := 0;
    var at := false;
    if |key| > 0 && key[0] == '@' {
      last := 1;
      at := true;
    }
    var keyToAdd := "";
    ghost var b := last;
    ScanStart(key);
    for i := last to |key|
      invariant Scanning(key, i, b, at, keys, keyToAdd)
    {
      var character := key[i];
      if character == '.' || character == '@' {
        if i == 0 || key[i - 1] != '\\' {
          ScanSplit(key, i, b, at, keys, keyToAdd);
          keys := keys + [Segment(keyToAdd, at)];
          at := character == '@';
          keyToAdd := "";
          b := i + 1;
        } else {
          ScanEscaped(key, i, b, at, keys, keyToAdd);
          keyToAdd := keyToAdd[..|keyToAdd| - 1] + ".";
        }
      } else {
        ScanPlain(key, i, b, at, keys, keyToAdd);
        keyToAdd := keyToAdd + [character];
      }
    }
    ScanEnd(key, b, at, keys, keyToAdd);
    keys := keys + [Segment(keyToAdd, at)];
  }

  /**
   * The state of `reads` after the first `i` characters: `keys` are the
   * finished segments, `text` is the segment begun at `b`, and the finished
   * segments followed by the segments from `b` on are the whole result.
   */
  ghost predicate Scanning(key: string, i: nat, b: nat, at: bool, keys: seq<Segment>, text: string)
  {
    b <= i <= |key| &&
    (b > 0 ==> IsSeparator(key[b - 1])) &&
    text == Unescape(key, b, i) &&
    i <= FirstSplit(key, b) &&
    keys + Pieces(key, b, at) == Tokenize(key)
  }

  lemma ScanStart(key: string)
    ensures Scanning(key, Start(key), Start(key), Start(key) == 1, [], "")
  {
  }

  lemma ScanSplit(key: string, i: nat, b: nat, at: bool, keys: seq<Segment>, text: string)
    requires Scanning(key, i, b, at, keys, text) && SplitsAt(key, i)
    ensures Scanning(key, i + 1, i + 1, key[i] == '@', keys + [Segment(text, at)], "")
  {
    PiecesSplit(key, b, at, i);
    var tail := Pieces(key, i + 1, key[i] == '@');
    SegmentsAssoc(keys, [Segment(text, at)], tail);
    assert i + 1 <= FirstSplit(key, i + 1);
  }

  lemma SegmentsAssoc(a: seq<Segment>, b: seq<Segment>, c: seq<Segment>)
    ensures a + b + c == a + (b + c)
  {
  }

  /** A segment ends at the first unescaped separator. */
  lemma PiecesSplit(s: string, b: nat, at: bool, i: nat)
    requires b <= i < |s| && SplitsAt(s, i) && i <= FirstSplit(s, b)
    ensures Pieces(s, b, at) == [Segment(Unescape(s, b, i), at)] + Pieces(s, i + 1, s[i] == '@')
  {
    assert FirstSplit(s, b) == i;
  }

  lemma ScanEscaped(key: string, i: nat, b: nat, at: bool, keys: seq<Segment>, text: string)
    requires Scanning(key, i, b, at, keys, text) && i < |key|
    requires IsSeparator(key[i]) && i > 0 && key[i - 1] == '\\'
    ensures |text| > 0 && Scanning(key, i + 1, b, at, keys, text[..|text| - 1] + ".")
  {
    assert !SplitsAt(key, i);
    assert b < i;
    assert text == Unescape(key, b, i - 1) + ['\\'];
    assert text[..|text| - 1] == Unescape(key, b, i - 1);
  }

  lemma ScanPlain(key: string, i: nat, b: nat, at: bool, keys: seq<Segment>, text: string)
    requires Scanning(key, i, b, at, keys, text) && i < |key| && !IsSeparator(key[i])
    ensures Scanning(key, i + 1, b, at, keys, text + [key[i]])
  {
    assert !SplitsAt(key, i);
  }

  lemma ScanEnd(key: string, b: nat, at: bool, keys: seq<Segment>, text: string)
    requires Scanning(key, |key|, b, at, keys, text)
    ensures keys + [Segment(text, at)] == Tokenize(key)
  {
    assert FirstSplit(key, b) == |key|;
  }

  /** `reads` always yields one segment more than there are unescaped separators. */
  lemma {:induction false} PiecesCount(s: string, b: nat, at: bool)
    requires b <= |s|
    ensures Shaped(Pieces(s, b, at), SeparatorsFrom(s, b), at)
    decreases |s| - b
  {
    var j := FirstSplit(s, b);
    SeparatorsSkip(s, b, j);
    if j < |s| {
      PiecesSplit(s, b, at, j);
      PiecesCount(s, j + 1, s[j] == '@');
      assert SeparatorsFrom(s, b) == [s[j]] + SeparatorsFrom(s, j + 1);
      ConsFlags(Pieces(s, b, at), Pieces(s, j + 1, s[j] == '@'), SeparatorsFrom(s, b), SeparatorsFrom(s, j + 1),
                Segment(Unescape(s, b, j), at), s[j]);
    } else {
      assert SeparatorsFrom(s, b) == [];
    }
  }

  /** One segment more than separators, the first flagged `at`, and every
      later segment flagged by whether the separator before it is `@`. */
  ghost predicate Shaped(pieces: seq<Segment>, seps: seq<char>, at: bool)
  {
    |pieces| == |seps| + 1 && pieces[0].at == at &&
    forall k :: 0 <= k < |seps| ==> pieces[k + 1].at == (seps[k] == '@')
  }

  /** The flag pattern of a segment list survives putting one more segment
      and one more separator in front. */
  lemma ConsFlags(pieces: seq<Segment>, rest: seq<Segment>, seps: seq<char>, restSeps: seq<char>, first: Segment, c: char)
    requires pieces == [first] + rest && seps == [c] + restSeps
    requires Shaped(rest, restSeps, c == '@')
    ensures Shaped(pieces, seps, first.at)
  {
    forall k | 0 <= k < |seps|
      ensures pieces[k + 1].at == (seps[k] == '@')
    {
      if k > 0 {
        assert pieces[k + 1] == rest[k] && seps[k] == restSeps[k - 1];
      }
    }
  }

  /** Positions that do not split contribute no separator. */
  lemma {:induction false} SeparatorsSkip(s: string, i: nat, j: nat)
    requires i <= j <= |s|
    requires forall k :: i <= k < j ==> !SplitsAt(s, k)
    ensures SeparatorsFrom(s, i) == SeparatorsFrom(s, j)
    decreases j - i
  {
    if i < j {
      SeparatorsSkip(s, i + 1, j);
    }
  }

  /** The segment count and the `at` flags of `reads(key)`, stated against the separators of `key`. */
  lemma TokenizeShape(key: string)
    ensures |Tokenize(key)| == |Separators(key)| + 1
    ensures Tokenize(key)[0].at <==> |key| > 0 && key[0] == '@'
    ensures forall k :: 0 <= k < |Separators(key)| ==>
              Tokenize(key)[k + 1].at == (Separators(key)[k] == '@')
  {
    PiecesCount(key, Start(key), Start(key) == 1);
  }

  /** Text without backslashes is copied into a segment unchanged. */
  lemma {:induction false} UnescapePlain(s: string, b: nat, e: nat)
    requires b <= e <= |s|
    requires forall k :: b <= k < e ==> s[k] != '\\'
    ensures Unescape(s, b, e) == s[b..e]
    decreases e - b
  {
    if b < e {
      UnescapePlain(s, b, e - 1);
      assert s[b..e] == s[b..e - 1] + [s[e - 1]];
    }
  }

  /** An escaped separator becomes "." and the text before it is kept. */
  lemma UnescapeEscaped(s: string, b: nat, e: nat)
    requires b + 2 <= e <= |s| && IsSeparator(s[e - 1]) && s[e - 2] == '\\'
    ensures Unescape(s, b, e) == Unescape(s, b, e - 2) + "."
  {
  }

  /** The examples of reader/reader_test.js:38-51: a leading `@`. */
  lemma TokenizeLeadingAt()
    ensures Tokenize("@foo") == [Segment("foo", true)]
  {
    assert FirstSplit("@foo", 1) == 4;
    assert Unescape("@foo", 1, 4) == "foo";
  }

  /** A leading `@` and a `.` separator. */
  lemma TokenizeDotted()
    ensures Tokenize("@foo.bar") == [Segment("foo", true), Segment("bar", false)]
  {
    assert FirstSplit("@foo.bar", 1) == 4;
    assert Unescape("@foo.bar", 1, 4) == "foo";
    assert FirstSplit("@foo.bar", 5) == 8;
    assert Unescape("@foo.bar", 5, 8) == "bar";
  }

  /** An escaped separator stays in the segment as ".". */
  lemma TokenizeEscapedDot()
    ensures Tokenize("@foo\\.bar") == [Segment("foo.bar", true)]
  {
    assert FirstSplit("@foo\\.bar", 1) == 9;
    assert Unescape("@foo\\.bar", 1, 4) == "foo";
    assert Unescape("@foo\\.bar", 1, 6) == "foo.";
    assert Unescape("@foo\\.bar", 1, 9) == "foo.bar";
  }

  /** An `@` separator in the middle starts an `@` segment. */
  lemma TokenizeInnerAt()
    ensures Tokenize("foo.bar@zed") == [Segment("foo", false), Segment("bar", false), Segment("zed", true)]
  {
    assert FirstSplit("foo.bar@zed", 0) == 3;
    assert FirstSplit("foo.bar@zed", 4) == 7;
    assert FirstSplit("foo.bar@zed", 8) == 11;
    assert Unescape("foo.bar@zed", 0, 3) == "foo";
    assert Unescape("foo.bar@zed", 4, 7) == "bar";
    assert Unescape("foo.bar@zed", 8, 11) == "zed";
  }

  // isAt (reader/reader.js:9-12)

  /** `isAt(index, reads)`: the read before `index` exists and is an `@` read. */
  function IsAt(index: int, segments: seq<Segment>): (r: bool)
  {
    1 <= index <= |segments| && segments[index - 1].at
  }

  /** `isAt(1, reads(key))` holds exactly for a key with a leading `@`, and `isAt(k + 2, reads(key))` exactly when the k-th separator is `@`. */
  lemma IsAtTokenize(key: string)
    ensures IsAt(1, Tokenize(key)) <==> |key| > 0 && key[0] == '@'
    ensures forall k :: 0 <= k < |Separators(key)| ==>
              (IsAt(k + 2, Tokenize(key)) <==> Separators(key)[k] == '@')
    ensures !IsAt(0, Tokenize(key)) && !IsAt(|Separators(key)| + 2, Tokenize(key))
  {
    TokenizeShape(key);
  }

  // read (reader/reader.js:59-126)

  /** The JavaScript values `read` tells apart. */
  datatype JsValue = Undefined | Null | Primitive(v: Value) | Object(id: Id) | Function(id: Id)

  /** `typeof v` is "object" or "function" and `v` is not `null`. */
  predicate ObjectLike(v: JsValue)
  {
    v.Object? || v.Function?
  }

  datatype ReadResult = ReadResult(value: JsValue, parent: JsValue)

  /**
   * The value after `i` reads when nothing stops early: `valueOf` stands for
   * the value readers (readValue) and `property` for the property readers.
   */
  function Chain(parent: JsValue, path: seq<Segment>, property: (JsValue, Segment) -> JsValue,
                 valueOf: (JsValue, nat) -> JsValue, i: nat): JsValue
    requires i <= |path|
  {
    if i == 0 then valueOf(parent, 0)
    else valueOf(property(Chain(parent, path, property, valueOf, i - 1), path[i - 1]), i)
  }

  /** The first non-final step whose value cannot have properties, or `|path|`. */
  function FirstStop(parent: JsValue, path: seq<Segment>, property: (JsValue, Segment) -> JsValue,
                     valueOf: (JsValue, nat) -> JsValue, i: nat): (j: nat)
    ensures (i <= |path| ==> i <= j) && j <= |path|
    ensures j < |path| ==> !ObjectLike(Chain(parent, path, property, valueOf, j))
    ensures forall k :: i <= k < j ==> ObjectLike(Chain(parent, path, property, valueOf, k))
    decreases |path| - i
  {
    if i >= |path| then |path|
    else if !ObjectLike(Chain(parent, path, property, valueOf, i)) then i
    else FirstStop(parent, path, property, valueOf, i + 1)
  }

  /**
   * `read(parent, reads)` without the found-observable and promise machinery:
   * it returns `{value: undefined, parent: prev}` as soon as a non-final step
   * yields `null` or a primitive, and otherwise the last value and its parent.
   */
  method Read(parent: JsValue, path: seq<Segment>, property: (JsValue, Segment) -> JsValue,
              valueOf: (JsValue, nat) -> JsValue) returns (r: ReadResult)
    ensures var stop := FirstStop(parent, path, property, valueOf, 1);
            if stop < |path|
            then r == ReadResult(Undefined, Chain(parent, path, property, valueOf, stop - 1))
            else r.value == Chain(parent, path, property, valueOf, |path|) &&
                 r.parent == if path == [] then Undefined else Chain(parent, path, property, valueOf, |path| - 1)
  {
    var cur := valueOf(parent, 0);
    var prev := Undefined;
    var i := 0;
    while i < |path|
      invariant 0 <= i <= |path|
      invariant cur == Chain(parent, path, property, valueOf, i)
      invariant prev == if i == 0 then Undefined else Chain(parent, path, property, valueOf, i - 1)
      invariant forall k :: 1 <= k <= i && k < |path| ==> ObjectLike(Chain(parent, path, property, valueOf, k))
    {
      prev := cur;
      cur := property(cur, path[i]);
      i := i + 1;
      cur := valueOf(cur, i);
      if i < |path| && !ObjectLike(cur) {
        assert !ObjectLike(Chain(parent, path, property, valueOf, i));
        assert FirstStop(parent, path, property, valueOf, 1) == i;
        return ReadResult(Undefined, prev);
      }
    }
    r := ReadResult(cur, prev);
  }
}
