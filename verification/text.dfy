/** The JavaScript string operations the core relies on: `trim`, `split` on a
    single-character separator, `endsWith`, and the whitespace class that both
    `trim` and the regular-expression class `\s` use. Strings are sequences of
    characters; lengths count characters. */
module Text {
  import opened Common
  import opened Seqs

  /** The characters JavaScript treats as white space (`\s`, `String.prototype.trim`). */
  const WhiteSpace: set<char> := {
    ' ', '\t', '\n', '\r', '\U{000B}', '\U{000C}', '\U{00A0}', '\U{1680}',
    '\U{2000}', '\U{2001}', '\U{2002}', '\U{2003}', '\U{2004}', '\U{2005}',
    '\U{2006}', '\U{2007}', '\U{2008}', '\U{2009}', '\U{200A}', '\U{2028}',
    '\U{2029}', '\U{202F}', '\U{205F}', '\U{3000}', '\U{FEFF}'
  }

  predicate IsSpace(c: char) {
    c in WhiteSpace
  }

  /** No character of `s` is white space. */
  predicate NoSpace(s: string) {
    forall k :: 0 <= k < |s| ==> !IsSpace(s[k])
  }

  function TrimStart(s: string): (r: string)
    ensures |r| <= |s| && r == s[|s| - |r|..]
    ensures forall k :: 0 <= k < |s| - |r| ==> IsSpace(s[k])
    ensures r == [] || !IsSpace(r[0])
    decreases |s|
  {
    if |s| > 0 && IsSpace(s[0]) then
      var r := TrimStart(s[1..]);
      assert s[1..][|s| - 1 - |r|..] == s[|s| - |r|..];
      assert forall k :: 1 <= k < |s| - |r| ==> s[k] == s[1..][k - 1];
      r
    else s
  }

  function TrimEnd(s: string): (r: string)
    ensures |r| <= |s| && r == s[..|r|]
    ensures forall k :: |r| <= k < |s| ==> IsSpace(s[k])
    ensures r == [] || !IsSpace(r[|r| - 1])
    decreases |s|
  {
    if |s| > 0 && IsSpace(s[|s| - 1]) then
      var r := TrimEnd(s[..|s| - 1]);
      assert s[..|s| - 1][..|r|] == s[..|r|];
      assert forall k :: |r| <= k < |s| - 1 ==> s[k] == s[..|s| - 1][k];
      r
    else s
  }

  /** `s.trim()`: `s` without its leading and trailing white space. */
  function Trim(s: string): (r: string)
    ensures |r| <= |s|
    ensures r == [] || (!IsSpace(r[0]) && !IsSpace(r[|r| - 1]))
    ensures NoSpace(s) ==> r == s
  {
    TrimEnd(TrimStart(s))
  }

  /** The trim is a slice of `s`, and only white space is cut away on either side. */
  lemma {:induction false} TrimIsSlice(s: string)
    ensures exists i, j ::
      && 0 <= i <= j <= |s| && Trim(s) == s[i..j]
      && (forall k :: 0 <= k < i ==> IsSpace(s[k]))
      && (forall k :: j <= k < |s| ==> IsSpace(s[k]))
  {
    var i := |s| - |TrimStart(s)|;
    var j := i + |Trim(s)|;
    TrimSliceAt(s, i, j);
  }

  lemma {:induction false} TrimSliceAt(s: string, i: nat, j: nat)
    requires i == |s| - |TrimStart(s)| && j == i + |Trim(s)|
    ensures j <= |s| && Trim(s) == s[i..j]
    ensures forall k :: 0 <= k < i ==> IsSpace(s[k])
    ensures forall k :: j <= k < |s| ==> IsSpace(s[k])
  {
    var a := TrimStart(s);
    var r := TrimEnd(a);
    assert a == s[i..];
    assert Trim(s) == r;
    SuffixSlice(s, a, r, i, j);
  }

  /** Where `a` is the tail of `s` from `i` and `r` the prefix of `a` left by
      `TrimEnd`, `r` sits in `s` from `i` to `j`, followed only by white space. */
  lemma {:induction false} SuffixSlice(s: string, a: string, r: string, i: nat, j: nat)
    requires i <= |s| && a == s[i..] && r == TrimEnd(a) && j == i + |r|
    ensures j <= |s| && r == s[i..j]
    ensures forall k :: j <= k < |s| ==> IsSpace(s[k])
  {
    assert r == a[..|r|];
    forall k | i + |r| <= k < |s| ensures IsSpace(s[k]) {
      assert s[k] == a[k - i];
    }
  }

  /** A string trims to nothing exactly when it is all white space; this is the
      JavaScript truthiness test `s.trim()`. */
  lemma {:induction false} TrimEmptyIffBlank(s: string)
    ensures Trim(s) == [] <==> forall k :: 0 <= k < |s| ==> IsSpace(s[k])
  {
    var a := TrimStart(s);
    if a != [] {
      assert !IsSpace(a[0]);
      assert s[|s| - |a|] == a[0];
    }
  }

  /** Leading white space before a trimmed word does not survive the trim. */
  lemma {:induction false} TrimDropsLeadingSpace(x: string)
    requires Trim(x) == x
    ensures Trim(" " + x) == x
  {
    TrimStartSkipsBlank(x);
    if x != [] {
      TrimKeepsWord(x);
    }
  }

  lemma TrimStartSkipsBlank(x: string)
    ensures TrimStart(" " + x) == TrimStart(x)
  {
    assert (" " + x)[1..] == x;
  }

  /** A word with no white space at either end is its own trim, on both sides. */
  lemma TrimKeepsWord(x: string)
    requires x != [] && !IsSpace(x[0]) && !IsSpace(x[|x| - 1])
    ensures TrimStart(x) == x && TrimEnd(x) == x
  {
  }

  /** `value || fallback` on strings: the empty string counts as false, so it
      takes the fallback and every other value is kept. */
  function Or(value: string, fallback: string): (r: string)
    ensures value != "" ==> r == value
    ensures value == "" ==> r == fallback
  {
    if value != "" then value else fallback
  }

  /** `s.endsWith(suffix)`; also the regular expression `/<suffix>$/`. */
  predicate EndsWith(s: string, suffix: string) {
    |suffix| <= |s| && s[|s| - |suffix|..] == suffix
  }

  /** `s.split(sep)` for a one-character separator: the pieces between
      separators, including empty ones; the empty string splits into `[""]`. */
  function Split(s: string, sep: char): (r: seq<string>)
    ensures |r| >= 1
    ensures forall k :: 0 <= k < |r| ==> sep !in r[k]
    decreases |s|
  {
    match FindFirst(s, (c: char) => c == sep)
    case None => [s]
    case Some(i) => [s[..i]] + Split(s[i + 1..], sep)
  }

  /** `parts.join(sep)`. */
  function Join(parts: seq<string>, sep: string): string
    decreases |parts|
  {
    if |parts| == 0 then ""
    else if |parts| == 1 then parts[0]
    else parts[0] + sep + Join(parts[1..], sep)
  }

  /** Splitting and re-joining with the same separator gives the text back. */
  lemma {:induction false} JoinSplit(s: string, sep: char)
    ensures Join(Split(s, sep), [sep]) == s
    decreases |s|
  {
    match FindFirst(s, (c: char) => c == sep)
    case None =>
    case Some(i) =>
      var rest := Split(s[i + 1..], sep);
      JoinSplit(s[i + 1..], sep);
      JoinCons(s[..i], rest, [sep]);
      assert s == s[..i] + [sep] + s[i + 1..];
  }

  /** Joining one more piece in front. */
  lemma JoinCons(x: string, rest: seq<string>, sep: string)
    requires |rest| >= 1
    ensures Join([x] + rest, sep) == x + sep + Join(rest, sep)
  {
    assert ([x] + rest)[1..] == rest;
  }

  /** Joining pieces that do not contain the separator and splitting again
      gives the pieces back. */
  lemma {:induction false} SplitJoin(parts: seq<string>, sep: char)
    requires |parts| >= 1
    requires forall k :: 0 <= k < |parts| ==> sep !in parts[k]
    ensures Split(Join(parts, [sep]), sep) == parts
    decreases |parts|
  {
    if |parts| == 1 {
      SplitWhole(parts[0], sep);
    } else {
      var tail := Join(parts[1..], [sep]);
      assert Join(parts, [sep]) == parts[0] + [sep] + tail;
      SplitCons(parts[0], tail, sep);
      SplitJoin(parts[1..], sep);
      assert parts == [parts[0]] + parts[1..];
    }
  }

  /** Text without the separator is one piece. */
  lemma SplitWhole(x: string, sep: char)
    requires sep !in x
    ensures Split(x, sep) == [x]
  {
    var p := (c: char) => c == sep;
    forall j | 0 <= j < |x| ensures !p(x[j]) {
      assert x[j] in x;
    }
  }

  /** `FindFirst` returns the first index that satisfies the test. */
  lemma FindFirstIsFirst<T>(s: seq<T>, p: T -> bool, i: nat)
    requires i < |s| && p(s[i])
    requires forall j :: 0 <= j < i ==> !p(s[j])
    ensures FindFirst(s, p) == Some(i)
  {
    var r := FindFirst(s, p);
    assert r.Some?;
  }

  /** The pieces of `s.split(sep).map(t => t.trim())`. */
  function SplitTrim(s: string, sep: char): (r: seq<string>)
    ensures |r| == |Split(s, sep)|
    ensures forall k :: 0 <= k < |r| ==> r[k] == Trim(Split(s, sep)[k])
  {
    TrimEach(Split(s, sep))
  }

  /** `pieces.map(t => t.trim())`. */
  function TrimEach(pieces: seq<string>): (r: seq<string>)
    ensures |r| == |pieces|
    ensures forall k :: 0 <= k < |r| ==> r[k] == Trim(pieces[k])
  {
    seq(|pieces|, k requires 0 <= k < |pieces| => Trim(pieces[k]))
  }

  /** A piece without the separator, the separator, then the rest: the piece
      comes off the front of the split. */
  lemma {:induction false} SplitCons(x: string, rest: string, sep: char)
    requires sep !in x
    ensures Split(x + [sep] + rest, sep) == [x] + Split(rest, sep)
  {
    var s := x + [sep] + rest;
    var p := (c: char) => c == sep;
    forall j | 0 <= j < |x| ensures !p(s[j]) {
      assert s[j] == x[j];
    }
    FindFirstIsFirst(s, p, |x|);
    assert s[..|x|] == x;
    assert s[|x| + 1..] == rest;
  }

  /** Every item with one blank in front of it. */
  function LeadBlank(parts: seq<string>): (r: seq<string>)
    ensures |r| == |parts|
    ensures forall k :: 0 <= k < |parts| ==> r[k] == " " + parts[k]
    decreases |parts|
  {
    if |parts| == 0 then [] else [" " + parts[0]] + LeadBlank(parts[1..])
  }

  /** Splitting `q + parts.join(", ")` at the commas: the first piece carries
      the prefix, every later one the blank after its comma. */
  lemma {:induction false} SplitCommaSpaced(q: string, parts: seq<string>)
    requires |parts| >= 1
    requires ',' !in q
    requires forall k :: 0 <= k < |parts| ==> ',' !in parts[k]
    ensures Split(q + Join(parts, ", "), ',') == [q + parts[0]] + LeadBlank(parts[1..])
    decreases |parts|
  {
    if |parts| == 1 {
      assert Join(parts, ", ") == parts[0];
      assert FindFirst(q + parts[0], (c: char) => c == ',').None?;
    } else {
      var tail := Join(parts[1..], ", ");
      assert Join(parts, ", ") == parts[0] + ", " + tail;
      assert q + Join(parts, ", ") == (q + parts[0]) + [','] + (" " + tail);
      SplitCons(q + parts[0], " " + tail, ',');
      SplitCommaSpaced(" ", parts[1..]);
      assert [" " + parts[1]] + LeadBlank(parts[1..][1..]) == LeadBlank(parts[1..]);
    }
  }

  /** `parts.join(", ").split(",")`: the first item, then the others each
      led by the blank that followed its comma. */
  lemma {:induction false} SplitCommaJoin(parts: seq<string>)
    requires |parts| >= 1
    requires forall k :: 0 <= k < |parts| ==> ',' !in parts[k]
    ensures Split(Join(parts, ", "), ',') == [parts[0]] + LeadBlank(parts[1..])
  {
    var joined := Join(parts, ", ");
    if |parts| == 1 {
      assert FindFirst(joined, (c: char) => c == ',').None?;
    } else {
      var tail := Join(parts[1..], ", ");
      assert joined == parts[0] + [','] + (" " + tail);
      SplitCons(parts[0], " " + tail, ',');
      SplitCommaSpaced(" ", parts[1..]);
      assert [" " + parts[1]] + LeadBlank(parts[1..][1..]) == LeadBlank(parts[1..]);
    }
  }

  /** A list shown as `parts.join(", ")` and read back with
      `split(",").map(t => t.trim())` is the list itself, when no item holds a
      comma or surrounding white space. */
  lemma {:induction false} SplitTrimJoin(parts: seq<string>)
    requires |parts| >= 1
    requires forall k :: 0 <= k < |parts| ==> ',' !in parts[k] && Trim(parts[k]) == parts[k]
    ensures SplitTrim(Join(parts, ", "), ',') == parts
  {
    SplitCommaJoin(parts);
    TrimBlankLed(parts);
  }

  /** Trimming the pieces `[parts[0]] + LeadBlank(parts[1..])` gives `parts`. */
  lemma {:induction false} TrimBlankLed(parts: seq<string>)
    requires |parts| >= 1
    requires forall k :: 0 <= k < |parts| ==> Trim(parts[k]) == parts[k]
    ensures TrimEach([parts[0]] + LeadBlank(parts[1..])) == parts
  {
    var r := TrimEach([parts[0]] + LeadBlank(parts[1..]));
    assert |r| == |parts| by {
      BlankLedPiece(parts, 0);
    }
    forall k | 0 <= k < |parts| ensures r[k] == parts[k] {
      TrimBlankLedPiece(parts, k);
    }
  }

  /** One piece of `TrimBlankLed`. */
  lemma {:induction false} TrimBlankLedPiece(parts: seq<string>, k: nat)
    requires k < |parts| && Trim(parts[k]) == parts[k]
    ensures |[parts[0]] + LeadBlank(parts[1..])| == |parts|
    ensures Trim(([parts[0]] + LeadBlank(parts[1..]))[k]) == parts[k]
  {
    BlankLedPiece(parts, k);
    if k > 0 {
      TrimDropsLeadingSpace(parts[k]);
    }
  }

  /** The pieces `[parts[0]] + LeadBlank(parts[1..])`, one at a time. */
  lemma BlankLedPiece(parts: seq<string>, k: nat)
    requires k < |parts|
    ensures |[parts[0]] + LeadBlank(parts[1..])| == |parts|
    ensures ([parts[0]] + LeadBlank(parts[1..]))[k] == if k == 0 then parts[0] else " " + parts[k]
  {
    if k > 0 {
      assert parts[1..][k - 1] == parts[k];
    }
  }
}
