/**
 * The second submission pathway, the `#submitBtn` click handler of the
 * alternate form: six checks in a fixed order, each ending the handler with a
 * status message on failure. Only the first failure is reported, nothing is
 * stored, and success navigates to the listing page after a delay.
 */
module LegacyForm {
  import opened JsText
  import opened JsRegex
  import opened Wrappers
  import opened Validator
  import opened Submission

  /** The raw values of `#appName`, `#companyName`, `#website`, `#free`, `#field` and `#desc`. */
  datatype LegacyInput = LegacyInput(
    appName: JsString,
    companyName: JsString,
    website: JsString,
    free: JsString,
    field: JsString,
    desc: JsString)

  /** The checks of the handler, named after the field each one reads. */
  datatype LegacyCheck = AppNameCheck | CompanyNameCheck | WebsiteCheck | FreeCheck | FieldCheck | DescCheck

  /** The position of a check in the chain. */
  function Rank(c: LegacyCheck): nat {
    match c
    case AppNameCheck => 0
    case CompanyNameCheck => 1
    case WebsiteCheck => 2
    case FreeCheck => 3
    case FieldCheck => 4
    case DescCheck => 5
  }

  const RedirectDelayMs: nat := 2000

  /** How the handler ends: a failure status for one check, or navigation after a delay. */
  datatype LegacyOutcome = Failed(check: LegacyCheck) | NavigateAfterDelay(target: JsString, delayMs: nat)

  /** The status message the handler shows for each outcome. */
  function StatusMessage(outcome: LegacyOutcome): string {
    match outcome
    case Failed(AppNameCheck) => "❌ اسم التطبيق يجب أن يكون باللغة الإنجليزية بدون فراغات."
    case Failed(CompanyNameCheck) => "❌ اسم الشركة يجب أن يكون باللغة العربية فقط."
    case Failed(WebsiteCheck) => "❌ الرجاء إدخال موقع إلكتروني صالح (URL)."
    case Failed(FreeCheck) => "❌ الرجاء تحديد ما إذا كان التطبيق مجانيًا."
    case Failed(FieldCheck) => "❌ الرجاء اختيار مجال الاستخدام."
    case Failed(DescCheck) => "❌ الرجاء إدخال شرح مختصر لا يقل عن 10 أحرف."
    case NavigateAfterDelay(_, _) => "✅ تم إرسال المعلومات بنجاح! سيتم نقلك إلى صفحة التطبيقات..."
  }

  /**
   * After the scheme: one code unit that is neither white space nor one of
   * `$.?#`, then any code unit but a line terminator, then non-white-space
   * code units only.
   */
  predicate UrlRest(u: JsString) {
    |u| >= 2 && !IsJsSpace(u[0]) && u[0] !in Str("$.?#") && !IsLineTerminator(u[1]) &&
    forall i | 2 <= i < |u| :: !IsJsSpace(u[i])
  }

  /**
   * Body of `/^(https?:\/\/)[^\s$.?#].[^\s]*$/gm`. A match is at least nine
   * code units long and never spans a line terminator.
   */
  predicate UrlBody(t: JsString): (r: bool)
    ensures r ==> |t| >= 9 && forall i | 0 <= i < |t| :: !IsLineTerminator(t[i])
  {
    (|t| >= 7 && t[..7] == Str("http://") && UrlRest(t[7..])) ||
    (|t| >= 8 && t[..8] == Str("https://") && UrlRest(t[8..]))
  }

  /** `urlRegex.test(website)`: the `m` flag lets the pattern match any one line, which is never shorter than nine code units. */
  predicate LegacyUrlOk(s: JsString): (r: bool)
    ensures r ==> |s| >= 9
  {
    TestAnchored(UrlBody, s, true)
  }

  /**
   * Whether the input passes one check, on the values the handler reads (four
   * of them trimmed). The name passes iff its trimmed value is non-empty and
   * all ASCII letters; the company iff non-empty and all Arabic block or white
   * space; the website only when its trimmed value has at least nine code
   * units; `free` and `field` iff not empty; the description iff it has at
   * least ten code units once trimmed.
   */
  predicate Passes(f: LegacyInput, c: LegacyCheck): (r: bool)
    ensures c == AppNameCheck ==>
      (r <==> |Trim(f.appName)| > 0 && forall i | 0 <= i < |Trim(f.appName)| :: IsAsciiLetter(Trim(f.appName)[i]))
    ensures c == CompanyNameCheck ==>
      (r <==> |Trim(f.companyName)| > 0 && forall i | 0 <= i < |Trim(f.companyName)| :: IsArabicOrSpace(Trim(f.companyName)[i]))
    ensures c == WebsiteCheck && r ==> |Trim(f.website)| >= 9
    ensures c == FreeCheck ==> (r <==> f.free != [])
    ensures c == FieldCheck ==> (r <==> f.field != [])
    ensures c == DescCheck ==> (r <==> |Trim(f.desc)| >= MinSummaryLength)
  {
    NameRule(Trim(f.appName));
    CompanyRule(Trim(f.companyName));
    match c
    case AppNameCheck => NameOk(Trim(f.appName))
    case CompanyNameCheck => CompanyOk(Trim(f.companyName))
    case WebsiteCheck => Trim(f.website) != [] && LegacyUrlOk(Trim(f.website))
    case FreeCheck => f.free != []
    case FieldCheck => f.field != []
    case DescCheck => Trim(f.desc) != [] && |Trim(f.desc)| >= MinSummaryLength
  }

  /**
   * The click handler. It fails on the first check, in the order name,
   * company, website, free, field, description, that does not pass, and
   * succeeds, navigating to the listing page after 2000 ms, iff all pass.
   * It has no access to the record store, so it never writes it.
   */
  method SubmitLegacy(f: LegacyInput) returns (outcome: LegacyOutcome, status: string)
    ensures status == StatusMessage(outcome)
    ensures outcome.Failed? ==> !Passes(f, outcome.check)
    ensures outcome.Failed? ==> forall c | Rank(c) < Rank(outcome.check) :: Passes(f, c)
    ensures outcome.NavigateAfterDelay? <==> forall c :: Passes(f, c)
    ensures outcome.NavigateAfterDelay? ==> outcome == NavigateAfterDelay(AppsPage, RedirectDelayMs)
  {
    var appName := Trim(f.appName);
    var companyName := Trim(f.companyName);
    var website := Trim(f.website);
    var desc := Trim(f.desc);

    if appName == [] || !TestAnchored(NameBody, appName, false) {
      outcome := Failed(AppNameCheck);
    } else if companyName == [] || !TestAnchored(CompanyBody, companyName, false) {
      outcome := Failed(CompanyNameCheck);
    } else if website == [] || !TestAnchored(UrlBody, website, true) {
      outcome := Failed(WebsiteCheck);
    } else if f.free == [] {
      outcome := Failed(FreeCheck);
    } else if f.field == [] {
      outcome := Failed(FieldCheck);
    } else if desc == [] || |desc| < MinSummaryLength {
      outcome := Failed(DescCheck);
    } else {
      outcome := NavigateAfterDelay(AppsPage, RedirectDelayMs);
    }
    status := StatusMessage(outcome);
  }

  /** On a value without line terminators the URL pattern must match the whole value. */
  lemma LegacyUrlSingleLine(s: JsString)
    requires forall i | 0 <= i < |s| :: !IsLineTerminator(s[i])
    ensures LegacyUrlOk(s) <==> UrlBody(s)
  {
    if LegacyUrlOk(s) {
      var p, q :| 0 <= p <= q <= |s| && StartAnchorAt(s, p, true) && EndAnchorAt(s, q, true) && UrlBody(s[p..q]);
      assert p == 0 && q == |s|;
      assert s[p..q] == s;
    }
    if UrlBody(s) {
      assert StartAnchorAt(s, 0, true) && EndAnchorAt(s, |s|, true) && s[0..|s|] == s;
    }
  }

  /**
   * Because of the `m` flag, a value passes the URL check as soon as one of
   * its lines does, whatever the lines before and after it hold.
   */
  lemma LegacyUrlAnyLine(before: JsString, line: JsString, after: JsString)
    requires UrlBody(line)
    requires after == [] || IsLineTerminator(after[0])
    ensures LegacyUrlOk(before + [0x000A] + line + after)
  {
    var s := before + [0x000A] + line + after;
    var p := |before| + 1;
    var q := p + |line|;
    assert s[p - 1] == 0x000A;
    assert s[p..q] == line;
    assert StartAnchorAt(s, p, true) && EndAnchorAt(s, q, true);
  }

  /**
   * The pattern demands two code units after the scheme, so `http://a` fails,
   * while the second of them may be a space, so `http://a b` passes.
   */
  lemma LegacyUrlExamples()
    ensures !LegacyUrlOk(Str("http://a"))
    ensures LegacyUrlOk(Str("http://a b"))
  {
    var short := Str("http://a");
    LegacyUrlSingleLine(short);
    assert short[..7] == Str("http://");
    var spaced := Str("http://a b");
    LegacyUrlSingleLine(spaced);
    assert spaced[..7] == Str("http://");
    assert UrlRest(spaced[7..]);
  }

  /**
   * On the same raw values, the two pathways agree on the name, company and
   * summary rules, and whatever the validator accepts for `free` and
   * `domain` also passes the looser non-empty checks here. The name and
   * company parts hold by unfolding: both pathways test the same pattern on
   * the trimmed value. The summary part needs trimming to be idempotent,
   * since pathway one trims the summary twice; the `free` and `domain` parts
   * say the validator's sets exclude the empty string.
   */
  lemma PathwaysAgreeBesidesWebsite(form: AppForm, parseUrl: UrlParser, f: LegacyInput)
    requires f.appName == form.name && f.companyName == form.company && f.desc == form.summary
    requires form.checkedFree == Some(f.free) && f.field == form.domain
    ensures var errors := Validate(Collect(form), parseUrl);
      (Name !in errors <==> Passes(f, AppNameCheck)) &&
      (Company !in errors <==> Passes(f, CompanyNameCheck)) &&
      (Summary !in errors <==> Passes(f, DescCheck)) &&
      (Free !in errors ==> Passes(f, FreeCheck)) &&
      (Domain !in errors ==> Passes(f, FieldCheck))
  {
    TrimIdempotent(form.summary);
  }
}
