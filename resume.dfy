/** The epoch a resumed run starts after: `int(re.findall(r'\d+', resume_model)[-1])`, or 0. */
module ResumeEpoch {
  import opened Failures

  predicate IsDigit(c: char)
  {
    '0' <= c <= '9'
  }

  ghost predicate AllDigits(s: string)
  {
    forall k :: 0 <= k < |s| ==> IsDigit(s[k])
  }

  /** `s[i..j]` is the last maximal run of digits of `s`: it is all digits, starts at the beginning of
      `s` or after a non-digit, and only non-digits follow it. */
  ghost predicate IsLastRun(s: string, i: int, j: int)
  {
    && 0 <= i < j <= |s|
    && (forall k :: i <= k < j ==> IsDigit(s[k]))
    && (i == 0 || !IsDigit(s[i - 1]))
    && (forall k :: j <= k < |s| ==> !IsDigit(s[k]))
  }

  /** The value `int()` gives a string of decimal digits. */
  function DecimalValue(s: string): (v: nat)
    requires AllDigits(s)
    decreases |s|
  {
    if s == [] then 0 else DecimalValue(s[..|s| - 1]) * 10 + (s[|s| - 1] as int - '0' as int)
  }

  /** The number of digits `s` starts with. */
  function LeadingDigits(s: string): (k: nat)
    ensures k <= |s|
    ensures forall m :: 0 <= m < k ==> IsDigit(s[m])
    ensures k < |s| ==> !IsDigit(s[k])
    decreases |s|
  {
    if s != [] && IsDigit(s[0]) then 1 + LeadingDigits(s[1..]) else 0
  }

  /** `re.findall(r'\d+', s)`: the maximal runs of digits, scanning left to right. */
  function DigitRuns(s: string): (runs: seq<string>)
    ensures forall r :: r in runs ==> r != [] && AllDigits(r)
    decreases |s|
  {
    if s == [] then []
    else if !IsDigit(s[0]) then DigitRuns(s[1..])
    else
      var k := LeadingDigits(s);
      [s[..k]] + DigitRuns(s[k..])
  }

  /** The number of non-digits `s` ends with. */
  function TrailingNonDigits(s: string): (t: nat)
    ensures t <= |s|
    ensures forall m :: |s| - t <= m < |s| ==> !IsDigit(s[m])
    ensures t < |s| ==> IsDigit(s[|s| - t - 1])
    decreases |s|
  {
    if s != [] && !IsDigit(s[|s| - 1]) then 1 + TrailingNonDigits(s[..|s| - 1]) else 0
  }

  /** The number of digits `s` ends with. */
  function TrailingDigits(s: string): (t: nat)
    ensures t <= |s|
    ensures forall m :: |s| - t <= m < |s| ==> IsDigit(s[m])
    ensures t < |s| ==> !IsDigit(s[|s| - t - 1])
    decreases |s|
  {
    if s != [] && IsDigit(s[|s| - 1]) then 1 + TrailingDigits(s[..|s| - 1]) else 0
  }

  /** The bounds of the last digit run found by scanning from the end: skip the trailing non-digits,
      then take the digits before them. `None` when `s` holds no digit. */
  function LastDigitRun(s: string): (r: Option<(nat, nat)>)
    ensures r.None? <==> forall k :: 0 <= k < |s| ==> !IsDigit(s[k])
    ensures r.Some? ==> IsLastRun(s, r.value.0, r.value.1)
  {
    var j := |s| - TrailingNonDigits(s);
    if j == 0 then None
    else
      var i := j - TrailingDigits(s[..j]);
      assert s[..j][j - 1] == s[j - 1];
      assert forall m :: i <= m < j ==> s[..j][m] == s[m];
      assert i > 0 ==> s[..j][i - 1] == s[i - 1];
      Some((i, j))
  }

  /** The resume epoch: 0 without a resume path, the value of the last digit run of the path otherwise,
      and the IndexError of `[-1]` on an empty match list when the path holds no digit. */
  function ParseResumeEpoch(resumeModel: Option<string>): (r: Result<nat>)
    ensures resumeModel.None? ==> r == Ok(0)
    ensures resumeModel.Some? ==>
      (r.Err? <==> forall k :: 0 <= k < |resumeModel.value| ==> !IsDigit(resumeModel.value[k]))
    ensures resumeModel.Some? && r.Err? ==> r.error == NoEpochInResumePath(resumeModel.value)
    ensures resumeModel.Some? && r.Ok? ==>
      var b := LastDigitRun(resumeModel.value).value;
      r.value == DecimalValue(resumeModel.value[b.0..b.1])
  {
    match resumeModel
    case None => Ok(0)
    case Some(p) =>
      var runs := DigitRuns(p);
      NoRunsIffNoDigits(p);
      if runs == [] then Err(NoEpochInResumePath(p))
      else
        LastMatchIsLastRun(p);
        Ok(DecimalValue(runs[|runs| - 1]))
  }

  /** `findall` finds nothing exactly when the string holds no digit. */
  lemma {:induction false} NoRunsIffNoDigits(s: string)
    ensures DigitRuns(s) == [] <==> forall k :: 0 <= k < |s| ==> !IsDigit(s[k])
    decreases |s|
  {
    if s != [] && !IsDigit(s[0]) {
      NoRunsIffNoDigits(s[1..]);
      assert forall k :: 1 <= k < |s| ==> s[k] == s[1..][k - 1];
    }
  }

  /** The last match of `findall` is the last maximal digit run, so the left-to-right regex scan and
      the scan from the end agree. */
  lemma {:induction false} LastMatchIsLastRun(s: string)
    requires DigitRuns(s) != []
    ensures var runs := DigitRuns(s); var b := LastDigitRun(s);
      b.Some? && runs[|runs| - 1] == s[b.value.0..b.value.1]
  {
    var i, j := LastMatchBounds(s);
    NoRunsIffNoDigits(s);
    var b := LastDigitRun(s).value;
    LastRunUnique(s, i, j, b.0, b.1);
  }

  /** The last `findall` match sits at bounds that satisfy `IsLastRun`. */
  lemma {:induction false} LastMatchBounds(s: string) returns (i: nat, j: nat)
    requires DigitRuns(s) != []
    ensures IsLastRun(s, i, j) && DigitRuns(s)[|DigitRuns(s)| - 1] == s[i..j]
    decreases |s|
  {
    var runs := DigitRuns(s);
    if !IsDigit(s[0]) {
      var i', j' := LastMatchBounds(s[1..]);
      ShiftRun(s, 1, i', j');
      i, j := i' + 1, j' + 1;
    } else {
      var k := LeadingDigits(s);
      var rest := s[k..];
      assert runs == [s[..k]] + DigitRuns(rest);
      if DigitRuns(rest) == [] {
        NoRunsIffNoDigits(rest);
        assert forall m :: k <= m < |s| ==> s[m] == rest[m - k];
        i, j := 0, k;
      } else {
        var i', j' := LastMatchBounds(rest);
        assert i' > 0 by { assert !IsDigit(rest[0]); }
        ShiftRun(s, k, i', j');
        i, j := k + i', k + j';
      }
    }
  }

  /** The last run of a suffix `s[d..]` is the last run of `s`, once it is known not to continue
      a run of `s` that starts before `d`. */
  lemma ShiftRun(s: string, d: nat, i: int, j: int)
    requires 0 < d <= |s| && IsLastRun(s[d..], i, j)
    requires i > 0 || !IsDigit(s[d - 1])
    ensures IsLastRun(s, i + d, j + d) && s[i + d..j + d] == s[d..][i..j]
  {
    var t := s[d..];
    forall k | i + d <= k < j + d
      ensures IsDigit(s[k])
    {
      assert s[k] == t[k - d];
    }
    forall k | j + d <= k < |s|
      ensures !IsDigit(s[k])
    {
      assert s[k] == t[k - d];
    }
    assert i > 0 ==> s[i + d - 1] == t[i - 1];
  }

  /** At most one run of a string is its last maximal one. */
  lemma LastRunUnique(s: string, i: int, j: int, i': int, j': int)
    requires IsLastRun(s, i, j) && IsLastRun(s, i', j')
    ensures i == i' && j == j'
  {
    assert IsDigit(s[j - 1]) && IsDigit(s[j' - 1]);
  }

  /** The epoch is the number of the path's last digit run wherever else digits appear: a path made of
      any prefix not ending in a digit, a number, and a digit-free tail resumes from that number. */
  lemma LastNumberWins(prefix: string, digits: string, suffix: string)
    requires digits != [] && AllDigits(digits)
    requires prefix == [] || !IsDigit(prefix[|prefix| - 1])
    requires forall k :: 0 <= k < |suffix| ==> !IsDigit(suffix[k])
    ensures ParseResumeEpoch(Some(prefix + digits + suffix)) == Ok(DecimalValue(digits))
  {
    var p := prefix + digits + suffix;
    var i, j := |prefix|, |prefix| + |digits|;
    NumberBetween(prefix, digits, suffix);
    var r := ParseResumeEpoch(Some(p));
    assert r.Ok? by { assert IsDigit(p[i]); }
    var b := LastDigitRun(p).value;
    LastRunUnique(p, i, j, b.0, b.1);
  }

  lemma NumberBetween(prefix: string, digits: string, suffix: string)
    requires digits != [] && AllDigits(digits)
    requires prefix == [] || !IsDigit(prefix[|prefix| - 1])
    requires forall k :: 0 <= k < |suffix| ==> !IsDigit(suffix[k])
    ensures var p, i, j := prefix + digits + suffix, |prefix|, |prefix| + |digits|;
      IsLastRun(p, i, j) && p[i..j] == digits
  {
    var p, i, j := prefix + digits + suffix, |prefix|, |prefix| + |digits|;
    assert p[i..j] == digits;
    forall k | i <= k < j
      ensures IsDigit(p[k])
    {
      assert p[k] == digits[k - i];
    }
    forall k | j <= k < |p|
      ensures !IsDigit(p[k])
    {
      assert p[k] == suffix[k - j];
    }
    assert i > 0 ==> p[i - 1] == prefix[i - 1];
  }

  /** The default evaluation path resumes from epoch 50, not from the 2 of `deepspeech2`. */
  lemma DefaultPathIsEpoch50()
    ensures ParseResumeEpoch(Some("models/deepspeech2/epoch_50/")) == Ok(50)
  {
    LastNumberWins("models/deepspeech2/epoch_", "50", "/");
    assert "models/deepspeech2/epoch_" + "50" + "/" == "models/deepspeech2/epoch_50/";
    assert DecimalValue("50") == 50 by {
      assert "50"[..1] == "5";
      assert "5"[..0] == "";
    }
  }
}
