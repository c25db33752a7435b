/**
 * GitHub check runs: the identifier parsed out of a check-run API URL, the
 * payload the notifier sends, and the request options built from that payload.
 *
 * argocd-commenter recognises check-run URLs with the anchored regular expression
 * `^https://api\.github\.com/repos/(.+?)/(.+?)/check-runs/(\d+)$` and Go's
 * leftmost-first (backtracking-preference) submatch semantics. Here that is a
 * hand-written scanner, `MatchCheckRunURL`, proved to return exactly the
 * submatches the pattern prescribes: `IsDecomposition` says what a match is,
 * `PreferredOver` says which match the lazy groups pick.
 */
module GitHub {
  import opened Wrappers
  import opened Decimal

  datatype Repository = Repository(owner: string, name: string)

  datatype CheckRunID = CheckRunID(repository: Repository, id: int)

  /** What the notifier wants a check run to show. An empty conclusion means "none". */
  datatype CheckRun = CheckRun(status: string, conclusion: string, title: string, summary: string)

  const CheckRunURLPrefix: string := "https://api.github.com/repos/"
  const CheckRunsSegment: string := "/check-runs/"

  /** `.` in Go's regexp syntax matches any character except a newline. */
  predicate NoNewline(s: string) {
    forall i :: 0 <= i < |s| ==> s[i] != '\n'
  }

  predicate NoSlash(s: string) {
    forall i :: 0 <= i < |s| ==> s[i] != '/'
  }

  /** The three capture groups: owner, repository name and the digits of the id. */
  datatype Submatch = Submatch(owner: string, name: string, id: string)

  /** `s` matches the pattern with these group contents. */
  ghost predicate IsDecomposition(s: string, m: Submatch) {
    && s == CheckRunURLPrefix + m.owner + "/" + m.name + CheckRunsSegment + m.id
    && |m.owner| >= 1 && NoNewline(m.owner)
    && |m.name| >= 1 && NoNewline(m.name)
    && |m.id| >= 1 && AllDigits(m.id)
  }

  /**
   * The order in which a backtracking matcher tries lazy groups: a shorter
   * owner first and, for the same owner, a shorter name.
   */
  ghost predicate PreferredOver(m: Submatch, m': Submatch) {
    |m.owner| < |m'.owner| || (|m.owner| == |m'.owner| && |m.name| <= |m'.name|)
  }

  /** Length of the longest suffix of `s` made of digits. */
  function TrailingDigits(s: string): (n: nat)
    ensures n <= |s|
    ensures forall j :: |s| - n <= j < |s| ==> IsDigit(s[j])
    ensures AllDigits(s[|s| - n..])
    ensures n < |s| ==> !IsDigit(s[|s| - n - 1])
  {
    if |s| == 0 || !IsDigit(s[|s| - 1]) then 0
    else
      var p := s[..|s| - 1];
      var n := TrailingDigits(p);
      assert forall j :: |s| - (n + 1) <= j < |s| - 1 ==> s[j] == p[j];
      n + 1
  }

  /** Position of the first '/' in `s` at or after `from`. */
  function FirstSlashFrom(s: string, from: nat): (r: Option<nat>)
    requires from <= |s|
    ensures r.Some? ==> from <= r.value < |s| && s[r.value] == '/'
    ensures r.Some? ==> forall j :: from <= j < r.value ==> s[j] != '/'
    ensures r.None? ==> forall j :: from <= j < |s| ==> s[j] != '/'
    decreases |s| - from
  {
    if from == |s| then None
    else if s[from] == '/' then Some(from)
    else FirstSlashFrom(s, from + 1)
  }

  /**
   * Splits the text after the prefix into "owner/name" and the id digits: the
   * id group is the run of digits ending the string, and "/check-runs/" must
   * come right before it.
   */
  function SplitCheckRunsSuffix(rest: string): (r: Option<(string, string)>)
    ensures r.Some? ==> rest == r.value.0 + CheckRunsSegment + r.value.1
    ensures r.Some? ==> |r.value.1| >= 1 && AllDigits(r.value.1)
  {
    var n := TrailingDigits(rest);
    if n == 0 || |rest| - n < |CheckRunsSegment| then None
    else
      var k := |rest| - n - |CheckRunsSegment|;
      if rest[k..k + |CheckRunsSegment|] != CheckRunsSegment then None
      else
        assert rest == rest[..k] + rest[k..k + |CheckRunsSegment|] + rest[|rest| - n..];
        Some((rest[..k], rest[|rest| - n..]))
  }

  /**
   * Splits "owner/name". The lazy owner group takes the fewest characters it
   * can: it stops at the first '/' after its first character, and the name
   * group must then be non-empty. Neither group spans a newline.
   */
  function SplitOwnerName(path: string): (r: Option<(string, string)>)
    ensures r.Some? ==> path == r.value.0 + "/" + r.value.1
    ensures r.Some? ==> |r.value.0| >= 1 && NoNewline(r.value.0)
    ensures r.Some? ==> |r.value.1| >= 1 && NoNewline(r.value.1)
  {
    if |path| == 0 || !NoNewline(path) then None
    else
      match FirstSlashFrom(path, 1)
      case None => None
      case Some(i) =>
        if i + 1 == |path| then None
        else
          assert path == path[..i] + "/" + path[i + 1..];
          Some((path[..i], path[i + 1..]))
  }

  /** The submatches of the check-run URL pattern, if `s` matches it. */
  function MatchCheckRunURL(s: string): (r: Option<Submatch>)
    ensures r.Some? ==> IsDecomposition(s, r.value)
  {
    if !(CheckRunURLPrefix <= s) then None
    else
      match SplitCheckRunsSuffix(s[|CheckRunURLPrefix|..])
      case None => None
      case Some((path, id)) =>
        match SplitOwnerName(path)
        case None => None
        case Some((owner, name)) => Some(Submatch(owner, name, id))
  }

  /** `ParseCheckRunURL`: the submatches, with the id group read as an int64. */
  function ParseCheckRunURL(s: string): (r: Option<CheckRunID>)
    ensures r.Some? ==> CheckRunURLPrefix <= s
    ensures r.Some? ==> |r.value.repository.owner| >= 1 && |r.value.repository.name| >= 1
    ensures r.Some? ==> 0 <= r.value.id <= MaxInt64
    ensures r.Some? ==>
      (exists m :: IsDecomposition(s, m)
         && r.value.repository == Repository(m.owner, m.name) && r.value.id == DecimalValue(m.id))
  {
    match MatchCheckRunURL(s)
    case None => None
    case Some(m) =>
      MatchSound(s);
      match ParseInt64(m.id)
      case None => None
      case Some(id) => Some(CheckRunID(Repository(m.owner, m.name), id))
  }

  /** The URL of a check run, as GitHub's API reports it. */
  function FormatCheckRunURL(c: CheckRunID): string
    requires c.id >= 0
  {
    CheckRunURLPrefix + c.repository.owner + "/" + c.repository.name + CheckRunsSegment
      + FormatDecimal(c.id)
  }

  // ---------------------------------------------------------------------------
  // The scanner agrees with the pattern.

  lemma {:induction false} TrailingDigitsOfDigitSuffix(x: string, d: string)
    requires |x| >= 1 && !IsDigit(x[|x| - 1]) && AllDigits(d)
    ensures TrailingDigits(x + d) == |d|
    decreases |d|
  {
    if |d| > 0 {
      assert (x + d)[..|x + d| - 1] == x + d[..|d| - 1];
      TrailingDigitsOfDigitSuffix(x, d[..|d| - 1]);
    } else {
      assert x + d == x;
    }
  }

  /** Every result of the scanner is a match of the pattern. */
  lemma MatchSound(s: string)
    ensures MatchCheckRunURL(s).Some? ==> IsDecomposition(s, MatchCheckRunURL(s).value)
  {
    if MatchCheckRunURL(s).Some? {
      var rest := s[|CheckRunURLPrefix|..];
      assert s == CheckRunURLPrefix + rest;
    }
  }

  /** A string ending in "/check-runs/" and digits splits at that segment. */
  lemma {:induction false} SplitCheckRunsSuffixComplete(path: string, id: string)
    requires |id| >= 1 && AllDigits(id)
    ensures SplitCheckRunsSuffix(path + CheckRunsSegment + id) == Some((path, id))
  {
    var rest := path + CheckRunsSegment + id;
    var x := path + CheckRunsSegment;
    assert rest == x + id;
    assert x[|x| - 1] == '/';
    TrailingDigitsOfDigitSuffix(x, id);
    var k := |rest| - |id| - |CheckRunsSegment|;
    assert rest[k..k + |CheckRunsSegment|] == CheckRunsSegment;
    assert rest[..k] == path;
    assert rest[|rest| - |id|..] == id;
  }

  /** "owner/name" splits, at a '/' no later than the one after `owner`. */
  lemma {:induction false} SplitOwnerNameComplete(owner: string, name: string)
    requires |owner| >= 1 && NoNewline(owner) && |name| >= 1 && NoNewline(name)
    ensures SplitOwnerName(owner + "/" + name).Some?
    ensures |SplitOwnerName(owner + "/" + name).value.0| <= |owner|
    ensures |SplitOwnerName(owner + "/" + name).value.0| == |owner| ==>
      SplitOwnerName(owner + "/" + name).value.1 == name
  {
    var path := owner + "/" + name;
    forall j | 0 <= j < |path| ensures path[j] != '\n' {
      if j < |owner| {
        assert path[j] == owner[j];
      } else if j > |owner| {
        assert path[j] == name[j - |owner| - 1];
      }
    }
    assert path[|owner|] == '/';
    var i := FirstSlashFrom(path, 1).value;
    assert i <= |owner|;
    if i == |owner| {
      assert path[i + 1..] == name;
    }
  }

  /**
   * Every match of the pattern is found, and the scanner's result is the one
   * the lazy groups prefer; it shares the "owner/name" text and the id digits
   * with every other match.
   */
  lemma {:induction false} MatchComplete(s: string, m': Submatch)
    requires IsDecomposition(s, m')
    ensures MatchCheckRunURL(s).Some?
    ensures PreferredOver(MatchCheckRunURL(s).value, m')
    ensures MatchCheckRunURL(s).value.id == m'.id
    ensures MatchCheckRunURL(s).value.owner + "/" + MatchCheckRunURL(s).value.name
         == m'.owner + "/" + m'.name
  {
    var path := m'.owner + "/" + m'.name;
    var rest := path + CheckRunsSegment + m'.id;
    assert s == CheckRunURLPrefix + rest;
    assert s[|CheckRunURLPrefix|..] == rest;
    SplitCheckRunsSuffixComplete(path, m'.id);
    SplitOwnerNameComplete(m'.owner, m'.name);
    var split := SplitOwnerName(path).value;
    assert MatchCheckRunURL(s) == Some(Submatch(split.0, split.1, m'.id));
  }

  // ---------------------------------------------------------------------------
  // Properties of the parser.

  /** When the owner has no '/', the match the lazy groups pick is exactly that decomposition. */
  lemma {:induction false} MatchOfSlashFreeOwner(s: string, m': Submatch)
    requires IsDecomposition(s, m') && NoSlash(m'.owner)
    ensures MatchCheckRunURL(s) == Some(m')
  {
    MatchComplete(s, m');
    var m := MatchCheckRunURL(s).value;
    var path := m'.owner + "/" + m'.name;
    assert path == m.owner + "/" + m.name;
    assert |m.owner| == |m'.owner| by {
      assert path[|m.owner|] == '/';
    }
    assert m.owner == path[..|m.owner|] == m'.owner;
    assert m.name == path[|m.owner| + 1..] == m'.name;
  }

  /** Formatting an identifier and parsing the URL gives the identifier back. */
  lemma ParseFormatRoundTrip(c: CheckRunID)
    requires |c.repository.owner| >= 1 && NoSlash(c.repository.owner) && NoNewline(c.repository.owner)
    requires |c.repository.name| >= 1 && NoNewline(c.repository.name)
    requires 0 <= c.id <= MaxInt64
    ensures ParseCheckRunURL(FormatCheckRunURL(c)) == Some(c)
  {
    var s := FormatCheckRunURL(c);
    var m' := Submatch(c.repository.owner, c.repository.name, FormatDecimal(c.id));
    assert IsDecomposition(s, m');
    MatchOfSlashFreeOwner(s, m');
    DecimalValueOfFormat(c.id);
  }

  /** The example in argocd-commenter's doc comment on `ParseCheckRunURL`. */
  lemma DocumentedExample()
    ensures ParseCheckRunURL("https://api.github.com/repos/int128/sandbox/check-runs/5348989392")
         == Some(CheckRunID(Repository("int128", "sandbox"), 5348989392))
  {
    ExampleDecomposition();
    var c := CheckRunID(Repository("int128", "sandbox"), 5348989392);
    ParseFormatRoundTrip(c);
  }

  lemma ExampleDecomposition()
    ensures FormatCheckRunURL(CheckRunID(Repository("int128", "sandbox"), 5348989392))
         == "https://api.github.com/repos/int128/sandbox/check-runs/5348989392"
  {
    ExampleId();
    assert CheckRunURLPrefix + "int128" + "/" + "sandbox" + CheckRunsSegment + "5348989392"
        == "https://api.github.com/repos/int128/sandbox/check-runs/5348989392";
  }

  lemma ExampleId()
    ensures FormatDecimal(5348989392) == "5348989392"
  {
    FormatOfDecimalValue("5348989392");
    assert DecimalValue("5") == 5;
    assert "53"[..1] == "5";
    assert DecimalValue("53") == 53;
    assert "534"[..2] == "53";
    assert DecimalValue("534") == 534;
    assert "5348"[..3] == "534";
    assert DecimalValue("5348") == 5348;
    assert "53489"[..4] == "5348";
    assert DecimalValue("53489") == 53489;
    assert "534898"[..5] == "53489";
    assert DecimalValue("534898") == 534898;
    assert "5348989"[..6] == "534898";
    assert DecimalValue("5348989") == 5348989;
    assert "53489893"[..7] == "5348989";
    assert DecimalValue("53489893") == 53489893;
    assert "534898939"[..8] == "53489893";
    assert DecimalValue("534898939") == 534898939;
    assert "5348989392"[..9] == "534898939";
    assert DecimalValue("5348989392") == 5348989392;
  }

  /** A string that does not start with the API prefix is not a check-run URL. */
  lemma RejectsMissingPrefix(s: string)
    requires !(CheckRunURLPrefix <= s)
    ensures ParseCheckRunURL(s) == None
  {
  }

  /** A string the pattern does not match parses to nothing. */
  lemma RejectsNonMatching(s: string)
    requires forall m :: !IsDecomposition(s, m)
    ensures ParseCheckRunURL(s) == None
  {
  }

  /** The pattern is anchored at the end: the last character must be a digit. */
  lemma RejectsTrailingText(s: string)
    requires |s| == 0 || !IsDigit(s[|s| - 1])
    ensures ParseCheckRunURL(s) == None
  {
  }

  /** A slash-free suffix of a string that ends in '/' and digits is all digits. */
  lemma SlashFreeSuffixIsDigits(s: string, x: string, d: string)
    requires |x| <= |s| && s[|s| - |x|..] == x && NoSlash(x)
    requires |d| + 1 <= |s| && s[|s| - |d| - 1] == '/' && s[|s| - |d|..] == d && AllDigits(d)
    ensures AllDigits(x)
  {
  }

  /** A match ends with a '/' followed by the id digits. */
  lemma DecompositionTail(s: string, m: Submatch)
    requires IsDecomposition(s, m)
    ensures |m.id| + 1 <= |s| && s[|s| - |m.id| - 1] == '/' && s[|s| - |m.id|..] == m.id
  {
  }

  /** Text after the last "/check-runs/" that is not all digits is rejected. */
  lemma RejectsNonDigitId(t: string, x: string)
    requires NoSlash(x) && !AllDigits(x)
    ensures ParseCheckRunURL(t + CheckRunsSegment + x) == None
  {
    var s := t + CheckRunsSegment + x;
    MatchSound(s);
    if MatchCheckRunURL(s).Some? {
      var m := MatchCheckRunURL(s).value;
      DecompositionTail(s, m);
      assert s[|s| - |x|..] == x;
      SlashFreeSuffixIsDigits(s, x, m.id);
    }
  }

  /** An all-digit id whose value exceeds the int64 range is rejected. */
  lemma RejectsOverflowingId(s: string, m: Submatch)
    requires IsDecomposition(s, m) && DecimalValue(m.id) > MaxInt64
    ensures ParseCheckRunURL(s) == None
  {
    MatchComplete(s, m);
  }

  /** Exactly the matches of the pattern whose id fits an int64 are accepted. */
  lemma AcceptsMatchWithinRange(s: string, m: Submatch)
    requires IsDecomposition(s, m) && DecimalValue(m.id) <= MaxInt64
    ensures ParseCheckRunURL(s).Some?
    ensures ParseCheckRunURL(s).value.id == DecimalValue(m.id)
    ensures ParseCheckRunURL(s).value.repository.owner + "/" + ParseCheckRunURL(s).value.repository.name
         == m.owner + "/" + m.name
    ensures |ParseCheckRunURL(s).value.repository.owner| <= |m.owner|
  {
    MatchComplete(s, m);
  }

  // ---------------------------------------------------------------------------
  // The update request.

  datatype CheckRunOutput = CheckRunOutput(title: Option<string>, summary: Option<string>)

  /** The fields of go-github's `UpdateCheckRunOptions` that the notifier sets. */
  datatype UpdateCheckRunOptions = UpdateCheckRunOptions(
    status: Option<string>,
    conclusion: Option<string>,
    output: Option<CheckRunOutput>)

  /** Status, title and summary are always sent; a conclusion only when there is one. */
  function UpdateOptionsOf(cr: CheckRun): (o: UpdateCheckRunOptions)
    ensures o.status == Some(cr.status)
    ensures o.output == Some(CheckRunOutput(Some(cr.title), Some(cr.summary)))
    ensures o.conclusion.Some? <==> cr.conclusion != ""
    ensures o.conclusion.Some? ==> o.conclusion.value == cr.conclusion
  {
    var o := UpdateCheckRunOptions(
      Some(cr.status), None, Some(CheckRunOutput(Some(cr.title), Some(cr.summary))));
    if cr.conclusion != "" then o.(conclusion := Some(cr.conclusion)) else o
  }

  /** What the check run shows after an update with these options. */
  function CheckRunOf(o: UpdateCheckRunOptions): CheckRun
  {
    var out := o.output.GetOr(CheckRunOutput(None, None));
    CheckRun(o.status.GetOr(""), o.conclusion.GetOr(""), out.title.GetOr(""), out.summary.GetOr(""))
  }

  /** The options carry the whole payload: nothing is lost by omitting an empty conclusion. */
  lemma UpdateOptionsRoundTrip(cr: CheckRun)
    ensures CheckRunOf(UpdateOptionsOf(cr)) == cr
  {
  }

  /** The REST call `Checks.UpdateCheckRun(owner, repo, id, options)`. */
  datatype UpdateRequest = UpdateRequest(
    owner: string, repo: string, checkRunID: int, options: UpdateCheckRunOptions)

  /** Prefix of the error `client.UpdateCheckRun` wraps a failed REST call in. */
  const UpdateErrorPrefix: string := "GitHub API error: "

  datatype UpdateResult = UpdateResult(request: UpdateRequest, err: Option<string>)

  /**
   * `client.UpdateCheckRun`. The network call is opaque: `restErr` is its
   * outcome (the text of its error, if it failed), which is wrapped.
   */
  function UpdateCheckRun(id: CheckRunID, cr: CheckRun, restErr: Option<string>): (r: UpdateResult)
    ensures r.request.owner == id.repository.owner && r.request.repo == id.repository.name
    ensures r.request.checkRunID == id.id
    ensures CheckRunOf(r.request.options) == cr
    ensures r.request.options == UpdateOptionsOf(cr)
    ensures r.err.Some? <==> restErr.Some?
    ensures r.err.Some? ==> r.err.value == UpdateErrorPrefix + restErr.value
  {
    var request := UpdateRequest(id.repository.owner, id.repository.name, id.id, UpdateOptionsOf(cr));
    match restErr
    case None => UpdateResult(request, None)
    case Some(e) => UpdateResult(request, Some(UpdateErrorPrefix + e))
  }
}
