/**
 * The validator of the add-application form (`validateAppForm`): six
 * independent rules over the fields of a candidate record, every failing
 * field reported with its own error.
 */
module Validator {
  import opened Wrappers
  import opened JsText
  import opened JsRegex

  /** One application description, as submitted and as stored: eight strings. */
  datatype AppRecord = AppRecord(
    name: JsString,
    company: JsString,
    website: JsString,
    free: JsString,
    domain: JsString,
    summary: JsString,
    logo: JsString,
    media: JsString)

  /** The validated fields; `logo` and `media` are accepted as they are. */
  datatype Field = Name | Company | Website | Free | Domain | Summary

  /** One error per rule; the website rule has two, for a malformed URL and for a wrong scheme. */
  datatype Error =
    | NameNotEnglish
    | CompanyNotArabic
    | WebsiteNotHttp
    | WebsiteMalformed
    | FreeNotChosen
    | DomainNotListed
    | SummaryTooShort

  const Yes: JsString := Str("yes")
  const No: JsString := Str("no")
  const Domains: seq<JsString> := [Str("E-Commerce"), Str("Education"), Str("Robotics")]
  const HttpProtocol: JsString := Str("http:")
  const HttpsProtocol: JsString := Str("https:")
  const MinSummaryLength := 10

  /**
   * The WHATWG `URL` constructor, reduced to what the validator reads from it:
   * the `protocol` of the parsed URL, or `None` where the constructor throws.
   * The parser itself is not part of this model; it is a parameter.
   */
  type UrlParser = JsString -> Option<JsString>

  /** The text shown next to a field for each error. */
  function Message(e: Error): string {
    match e
    case NameNotEnglish => "يجب إدخال اسم التطبيق بأحرف إنجليزية فقط ولا يحتوي فراغات."
    case CompanyNotArabic => "اسم الشركة يجب أن يكون أحرفًا هجائية عربية فقط."
    case WebsiteNotHttp => "أدخل رابطًا صحيحًا يبدأ بـ http:// أو https://"
    case WebsiteMalformed => "أدخل رابطًا صحيحًا (URL). مثال: https://example.com"
    case FreeNotChosen => "اختر إذا كان التطبيق مجانيًا أم لا."
    case DomainNotListed => "اختر مجالًا من القائمة المحددة."
    case SummaryTooShort => "الشرح المختصر يجب أن لا يقل عن 10 أحرف."
  }

  /** Body of `/^[A-Za-z]+$/`. */
  predicate NameBody(t: JsString) {
    OneOrMore(IsAsciiLetter, t)
  }

  predicate IsArabicOrSpace(c: CodeUnit) {
    IsArabicBlock(c) || IsJsSpace(c)
  }

  /** Body of `/^[\u0600-\u06FF\s]+$/`. */
  predicate CompanyBody(t: JsString) {
    OneOrMore(IsArabicOrSpace, t)
  }

  /** The name rule as written: non-empty and the English-letters pattern matches. */
  predicate NameOk(s: JsString) {
    s != [] && TestAnchored(NameBody, s, false)
  }

  /** The company rule as written: non-empty and the Arabic pattern matches. */
  predicate CompanyOk(s: JsString) {
    s != [] && TestAnchored(CompanyBody, s, false)
  }

  /**
   * The website rule: a URL that does not parse is malformed; one that parses
   * must have the protocol `http:` or `https:`.
   */
  function WebsiteError(s: JsString, parseUrl: UrlParser): (r: Option<Error>)
    ensures r == None <==> parseUrl(s).Some? && parseUrl(s).value in {HttpProtocol, HttpsProtocol}
    ensures r == Some(WebsiteMalformed) <==> parseUrl(s).None?
    ensures r.Some? ==> r.value in {WebsiteMalformed, WebsiteNotHttp}
  {
    match parseUrl(s)
    case None => Some(WebsiteMalformed)
    case Some(protocol) =>
      if protocol == HttpProtocol || protocol == HttpsProtocol then None else Some(WebsiteNotHttp)
  }

  predicate FreeOk(s: JsString) {
    s == Yes || s == No
  }

  predicate DomainOk(s: JsString) {
    s in Domains
  }

  /** The summary rule as written: non-empty and at least ten code units once trimmed. */
  predicate SummaryOk(s: JsString) {
    s != [] && |Trim(s)| >= MinSummaryLength
  }

  /** Every rule passes. */
  predicate Acceptable(d: AppRecord, parseUrl: UrlParser) {
    NameOk(d.name) && CompanyOk(d.company) && WebsiteError(d.website, parseUrl).None? &&
    FreeOk(d.free) && DomainOk(d.domain) && SummaryOk(d.summary)
  }

  /**
   * `validateAppForm`: the map from each failing field to its error. The
   * rules are checked independently, so the keys are exactly the failing fields.
   */
  function Validate(d: AppRecord, parseUrl: UrlParser): (errors: map<Field, Error>)
    ensures Name in errors <==> !NameOk(d.name)
    ensures Company in errors <==> !CompanyOk(d.company)
    ensures Website in errors <==> WebsiteError(d.website, parseUrl).Some?
    ensures Free in errors <==> d.free != Yes && d.free != No
    ensures Domain in errors <==> d.domain !in Domains
    ensures Summary in errors <==> |Trim(d.summary)| < MinSummaryLength
    ensures Name in errors ==> errors[Name] == NameNotEnglish
    ensures Company in errors ==> errors[Company] == CompanyNotArabic
    ensures Website in errors ==> WebsiteError(d.website, parseUrl) == Some(errors[Website])
    ensures Free in errors ==> errors[Free] == FreeNotChosen
    ensures Domain in errors ==> errors[Domain] == DomainNotListed
    ensures Summary in errors ==> errors[Summary] == SummaryTooShort
    ensures errors == map[] <==> Acceptable(d, parseUrl)
  {
    var e1 := if NameOk(d.name) then map[] else map[Name := NameNotEnglish];
    var e2 := if CompanyOk(d.company) then e1 else e1[Company := CompanyNotArabic];
    var e3 := match WebsiteError(d.website, parseUrl)
              case None => e2
              case Some(err) => e2[Website := err];
    var e4 := if FreeOk(d.free) then e3 else e3[Free := FreeNotChosen];
    var e5 := if DomainOk(d.domain) then e4 else e4[Domain := DomainNotListed];
    var e6 := if SummaryOk(d.summary) then e5 else e5[Summary := SummaryTooShort];
    assert Acceptable(d, parseUrl) ==> e6 == map[];
    e6
  }

  /**
   * The name gets no error iff it is non-empty and every code unit is an
   * ASCII letter: the anchored pattern rejects digits, punctuation, spaces
   * and the empty string.
   */
  lemma NameRule(s: JsString)
    ensures NameOk(s) <==> |s| > 0 && forall i | 0 <= i < |s| :: IsAsciiLetter(s[i])
  {
    WholeInputMatch(NameBody, s);
  }

  /**
   * The company gets no error iff it is non-empty and every code unit is in
   * U+0600..U+06FF or is white space.
   */
  lemma CompanyRule(s: JsString)
    ensures CompanyOk(s) <==> |s| > 0 && forall i | 0 <= i < |s| :: IsArabicOrSpace(s[i])
  {
    WholeInputMatch(CompanyBody, s);
  }

  /** The record of the end-to-end scenario, with the name left open. */
  function Sample(name: JsString): AppRecord {
    AppRecord(name, Str("شركة الاختبار"), Str("https://test.com"), Yes, Str("Education"),
              Str("A great learning tool"), [], [])
  }

  /** The sample with the name `MyApp` passes every rule. */
  lemma SampleAccepted(parseUrl: UrlParser)
    requires parseUrl(Str("https://test.com")) == Some(HttpsProtocol)
    ensures Validate(Sample(Str("MyApp")), parseUrl) == map[]
  {
    var d := Sample(Str("MyApp"));
    NameRule(d.name);
    CompanyRule(d.company);
    assert forall i | 0 <= i < |d.company| :: IsArabicOrSpace(d.company[i]);
    assert |Trim(d.summary)| >= MinSummaryLength by {
      assert !IsJsSpace(d.summary[0]) && !IsJsSpace(d.summary[|d.summary| - 1]);
    }
  }

  /** The sample with the name `My App` fails the name rule and only that one. */
  lemma SampleWithSpaceRejected(parseUrl: UrlParser)
    requires parseUrl(Str("https://test.com")) == Some(HttpsProtocol)
    ensures Validate(Sample(Str("My App")), parseUrl) == map[Name := NameNotEnglish]
  {
    var d := Sample(Str("My App"));
    NameRule(d.name);
    assert !IsAsciiLetter(d.name[2]);
    CompanyRule(d.company);
    assert forall i | 0 <= i < |d.company| :: IsArabicOrSpace(d.company[i]);
    assert |Trim(d.summary)| >= MinSummaryLength by {
      assert !IsJsSpace(d.summary[0]) && !IsJsSpace(d.summary[|d.summary| - 1]);
    }
  }
}
