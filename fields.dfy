/**
 * Splitting one line of a service manager's listing into a service name and
 * its status, as `line.split(None, 1)` followed by a two-value unpacking.
 */
module Fields {
  import opened Wrappers

  /** Whitespace as `str.split` sees it in a byte string. */
  predicate IsSpace(c: char) {
    c == ' ' || c == '\t' || c == '\n' || c == '\r' || c == '\U{0B}' || c == '\U{0C}'
  }

  /** The first index at or after `i` that is not whitespace (or the end). */
  function SkipSpace(s: string, i: nat): (j: nat)
    requires i <= |s|
    ensures i <= j <= |s|
    ensures forall k :: i <= k < j ==> IsSpace(s[k])
    ensures j == |s| || !IsSpace(s[j])
    decreases |s| - i
  {
    if i < |s| && IsSpace(s[i]) then SkipSpace(s, i + 1) else i
  }

  /** The first index at or after `i` that is whitespace (or the end). */
  function SkipWord(s: string, i: nat): (j: nat)
    requires i <= |s|
    ensures i <= j <= |s|
    ensures forall k :: i <= k < j ==> !IsSpace(s[k])
    ensures j == |s| || IsSpace(s[j])
    decreases |s| - i
  {
    if i < |s| && !IsSpace(s[i]) then SkipWord(s, i + 1) else i
  }

  /** The whitespace-separated fields of `s` from index `i` on. */
  function WordsFrom(s: string, i: nat): (ws: seq<string>)
    requires i <= |s|
    decreases |s| - i
  {
    var j := SkipSpace(s, i);
    if j == |s| then []
    else
      var k := SkipWord(s, j);
      [s[j..k]] + WordsFrom(s, k)
  }

  /** The whitespace-separated fields of `s`, as `s.split()` gives them. */
  function Words(s: string): seq<string> {
    WordsFrom(s, 0)
  }

  /** One entry of a service listing. */
  datatype Service = Service(name: string, status: string)

  /**
   * `line.split(None, 1)`: no part for a blank line, else the first field
   * and, when anything but whitespace follows it, the rest of the line after
   * the whitespace run that ends the first field.
   */
  function SplitOnce(line: string): (parts: seq<string>)
    ensures |parts| <= 2
  {
    var i0 := SkipSpace(line, 0);
    if i0 == |line| then []
    else
      var i1 := SkipWord(line, i0);
      var i2 := SkipSpace(line, i1);
      if i2 == |line| then [line[i0..i1]] else [line[i0..i1], line[i2..]]
  }

  /**
   * `line.split(None, 1)` has no part for a line without fields, one part
   * (the field) for a line with one field, and two parts otherwise, the
   * first of which is the first field.
   */
  lemma SplitOnceFields(line: string)
    ensures |SplitOnce(line)| == if |Words(line)| >= 2 then 2 else |Words(line)|
    ensures SplitOnce(line) != [] ==> SplitOnce(line)[0] == Words(line)[0]
  {
    var i0 := SkipSpace(line, 0);
    if i0 < |line| {
      var i1 := SkipWord(line, i0);
      var i2 := SkipSpace(line, i1);
      assert Words(line) == [line[i0..i1]] + WordsFrom(line, i1);
      WordsFromSkip(line, i1);
      if i2 < |line| {
        WordsFromCons(line, i2, i2, SkipWord(line, i2));
      } else {
        WordsFromNil(line, i2);
      }
    } else {
      WordsFromNil(line, 0);
    }
  }

  /**
   * `name, status = line.split(None, 1)`: a line that does not split into
   * exactly two parts cannot be unpacked; the failure carries the line.
   */
  function ParseLine(line: string): (r: Result<Service, string>)
    ensures r.Failure? ==> r.error == line
  {
    var parts := SplitOnce(line);
    if |parts| == 2 then Success(Service(parts[0], parts[1])) else Failure(line)
  }

  /**
   * A parsed name is non-empty and holds no whitespace; a parsed status is
   * non-empty and starts with a non-blank.
   */
  lemma ParseLineShape(line: string)
    requires ParseLine(line).Success?
    ensures var s := ParseLine(line).value;
      && s.name != [] && (forall i :: 0 <= i < |s.name| ==> !IsSpace(s.name[i]))
      && s.status != [] && !IsSpace(s.status[0])
  {
    var i0 := SkipSpace(line, 0);
    var i1 := SkipWord(line, i0);
    assert forall i :: 0 <= i < i1 - i0 ==> line[i0..i1][i] == line[i0 + i];
  }

  /** Skipping from `i` stops exactly at `j` when `s[i..j]` is blank and `s[j]` is not. */
  lemma {:induction false} SkipSpaceAt(s: string, i: nat, j: nat)
    requires i <= j <= |s|
    requires forall k :: i <= k < j ==> IsSpace(s[k])
    requires j == |s| || !IsSpace(s[j])
    ensures SkipSpace(s, i) == j
    decreases j - i
  {
    if i < j {
      SkipSpaceAt(s, i + 1, j);
    }
  }

  /** Skipping a word from `i` stops exactly at `j` when `s[i..j]` is non-blank and `s[j]` is blank. */
  lemma {:induction false} SkipWordAt(s: string, i: nat, j: nat)
    requires i <= j <= |s|
    requires forall k :: i <= k < j ==> !IsSpace(s[k])
    requires j == |s| || IsSpace(s[j])
    ensures SkipWord(s, i) == j
    decreases j - i
  {
    if i < j {
      SkipWordAt(s, i + 1, j);
    }
  }

  /** `t` is the suffix of `s` that starts at index `d`. */
  predicate SuffixAt(t: string, s: string, d: nat) {
    d + |t| == |s| && forall m :: 0 <= m < |t| ==> t[m] == s[d + m]
  }

  /** Skipping whitespace in a suffix stops where it stops in the whole string. */
  lemma {:induction false} SkipSpaceSuffix(t: string, s: string, d: nat, i: nat)
    requires SuffixAt(t, s, d) && i <= |t|
    ensures d + SkipSpace(t, i) == SkipSpace(s, d + i)
    decreases |t| - i
  {
    if i < |t| {
      assert t[i] == s[d + i];
      SkipSpaceSuffix(t, s, d, i + 1);
    }
  }

  /** Skipping a word in a suffix stops where it stops in the whole string. */
  lemma {:induction false} SkipWordSuffix(t: string, s: string, d: nat, i: nat)
    requires SuffixAt(t, s, d) && i <= |t|
    ensures d + SkipWord(t, i) == SkipWord(s, d + i)
    decreases |t| - i
  {
    if i < |t| {
      assert t[i] == s[d + i];
      SkipWordSuffix(t, s, d, i + 1);
    }
  }

  /** A slice of a suffix is a slice of the whole string. */
  lemma SliceOfSuffix(t: string, s: string, d: nat, j: nat, k: nat)
    requires SuffixAt(t, s, d) && j <= k <= |t|
    ensures t[j..k] == s[d + j..d + k]
  {
    forall m | 0 <= m < k - j
      ensures t[j..k][m] == s[d + j..d + k][m]
    {
      assert t[j..k][m] == t[j + m];
    }
  }

  /** The first field found from `i`, between `j` and `k`, and the fields after it. */
  lemma WordsFromCons(s: string, i: nat, j: nat, k: nat)
    requires i <= |s| && j == SkipSpace(s, i) && j < |s| && k == SkipWord(s, j)
    ensures WordsFrom(s, i) == [s[j..k]] + WordsFrom(s, k)
  {
  }

  /** No field is found once only whitespace is left. */
  lemma WordsFromNil(s: string, i: nat)
    requires i <= |s| && SkipSpace(s, i) == |s|
    ensures WordsFrom(s, i) == []
  {
  }

  /**
   * One step of `WordsFromSuffix`: when the first field is found at the same
   * place and the fields after it agree, all the fields agree.
   */
  lemma WordsFromSuffixStep(t: string, s: string, d: nat, i: nat, j: nat, k: nat)
    requires i <= |t| && j == SkipSpace(t, i) && j < |t| && k == SkipWord(t, j)
    requires d + i <= |s| && d + j == SkipSpace(s, d + i) && d + j < |s| && d + k == SkipWord(s, d + j)
    requires t[j..k] == s[d + j..d + k]
    requires WordsFrom(t, k) == WordsFrom(s, d + k)
    ensures WordsFrom(t, i) == WordsFrom(s, d + i)
  {
    WordsFromCons(t, i, j, k);
    WordsFromCons(s, d + i, d + j, d + k);
  }

  /** The fields of a suffix are the fields of the whole string from that index on. */
  lemma {:induction false} WordsFromSuffix(t: string, s: string, d: nat, i: nat)
    requires SuffixAt(t, s, d) && i <= |t|
    ensures WordsFrom(t, i) == WordsFrom(s, d + i)
    decreases |t| - i
  {
    var j := SkipSpace(t, i);
    SkipSpaceSuffix(t, s, d, i);
    if j < |t| {
      var k := SkipWord(t, j);
      SkipWordSuffix(t, s, d, j);
      SliceOfSuffix(t, s, d, j, k);
      WordsFromSuffix(t, s, d, k);
      WordsFromSuffixStep(t, s, d, i, j, k);
    } else {
      WordsFromNil(t, i);
      WordsFromNil(s, d + i);
    }
  }

  /** Fields are found again after skipping whitespace. */
  lemma WordsFromSkip(s: string, i: nat)
    requires i <= |s|
    ensures WordsFrom(s, SkipSpace(s, i)) == WordsFrom(s, i)
  {
    SkipSpaceAt(s, SkipSpace(s, i), SkipSpace(s, i));
  }

  /**
   * A line is parsed exactly when it has at least two fields; the name is
   * its first field and the status holds exactly the remaining fields.
   */
  lemma ParseLineFields(line: string)
    ensures ParseLine(line).Success? <==> |Words(line)| >= 2
    ensures ParseLine(line).Success? ==>
      ParseLine(line).value.name == Words(line)[0] && Words(ParseLine(line).value.status) == Words(line)[1..]
  {
    var i0 := SkipSpace(line, 0);
    if i0 < |line| {
      var i1 := SkipWord(line, i0);
      var i2 := SkipSpace(line, i1);
      assert Words(line) == [line[i0..i1]] + WordsFrom(line, i1);
      WordsFromSkip(line, i1);
      if i2 < |line| {
        assert SuffixAt(line[i2..], line, i2);
        WordsFromSuffix(line[i2..], line, i2, 0);
        assert WordsFrom(line, i2) != [];
      }
    }
  }

  /**
   * Any line made of optional whitespace, a name, whitespace and a status
   * that starts with a non-blank parses to that name and status.
   */
  lemma ParseLineOfFields(lead: string, name: string, gap: string, status: string)
    requires forall i :: 0 <= i < |lead| ==> IsSpace(lead[i])
    requires forall i :: 0 <= i < |gap| ==> IsSpace(gap[i])
    requires gap != []
    requires name != [] && forall i :: 0 <= i < |name| ==> !IsSpace(name[i])
    requires status != [] && !IsSpace(status[0])
    ensures ParseLine(lead + name + gap + status) == Success(Service(name, status))
  {
    var line := lead + name + gap + status;
    var i0, i1, i2 := |lead|, |lead| + |name|, |lead| + |name| + |gap|;
    assert forall k :: 0 <= k < i0 ==> line[k] == lead[k];
    assert forall k :: i0 <= k < i1 ==> line[k] == name[k - i0];
    assert forall k :: i1 <= k < i2 ==> line[k] == gap[k - i1];
    assert line[i2] == status[0];
    SkipSpaceAt(line, 0, i0);
    SkipWordAt(line, i0, i1);
    SkipSpaceAt(line, i1, i2);
    assert line[i0..i1] == name;
    assert line[i2..] == status;
  }
}
