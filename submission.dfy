/**
 * The submission controller of the add-application form (`submitAppForm`):
 * collect the fields, validate them, then either show the errors next to the
 * fields and keep the store as it is, or put the record at the head of the
 * stored list and navigate to the listing page.
 */
module Submission {
  import opened Wrappers
  import opened JsText
  import opened Validator
  import opened RecordStore

  /**
   * The raw values of the form's fields. `checkedFree` is the value of the
   * checked `free` radio button, `None` when no button is checked.
   */
  datatype AppForm = AppForm(
    name: JsString,
    company: JsString,
    website: JsString,
    checkedFree: Option<JsString>,
    domain: JsString,
    summary: JsString,
    logo: JsString,
    media: JsString)

  /** The default navigation target after a successful submission. */
  const AppsPage: JsString := Str("app.html")

  /** How a submission ends: errors shown next to their fields, or navigation to `target`. */
  datatype SubmitOutcome = Rejected(errors: map<Field, Error>) | Navigate(target: JsString)

  /**
   * The record built from the form: every text field trimmed, `free` the
   * checked value or the empty string, `domain` as selected. So no checked
   * button leaves `free` empty, and `free` passes its rule exactly when the
   * checked button carries `yes` or `no`.
   */
  function Collect(form: AppForm): (d: AppRecord)
    ensures d.domain == form.domain
    ensures form.checkedFree.None? ==> d.free == []
    ensures FreeOk(d.free) <==> form.checkedFree == Some(Yes) || form.checkedFree == Some(No)
  {
    AppRecord(
      Trim(form.name),
      Trim(form.company),
      Trim(form.website),
      if form.checkedFree.Some? then form.checkedFree.value else [],
      form.domain,
      Trim(form.summary),
      Trim(form.logo),
      Trim(form.media))
  }

  /** Every text field of a collected record is already trimmed. */
  lemma CollectedFieldsAreTrimmed(form: AppForm)
    ensures var d := Collect(form);
      Trim(d.name) == d.name && Trim(d.company) == d.company && Trim(d.website) == d.website &&
      Trim(d.summary) == d.summary && Trim(d.logo) == d.logo && Trim(d.media) == d.media
  {
    TrimIdempotent(form.name);
    TrimIdempotent(form.company);
    TrimIdempotent(form.website);
    TrimIdempotent(form.summary);
    TrimIdempotent(form.logo);
    TrimIdempotent(form.media);
  }

  /** The texts of the annotations for `errors`: each key's error message. */
  function Annotations(errors: map<Field, Error>): map<Field, string> {
    map f | f in errors.Keys :: Message(errors[f])
  }

  /** The error annotations shown after the form's fields, by field. */
  class ErrorDisplay {
    var shown: map<Field, string>

    constructor ()
      ensures shown == map[]
    {
      shown := map[];
    }

    /** Removes every annotation. */
    method Clear()
      modifies this
      ensures shown == map[]
    {
      shown := map[];
    }

    /** Puts the message of each key of `errors` after that key's field, one key at a time. */
    method ShowAll(errors: map<Field, Error>)
      modifies this
      ensures shown == old(shown) + Annotations(errors)
      ensures old(shown) == map[] ==> shown.Keys == errors.Keys
      ensures forall f | f in errors :: shown[f] == Message(errors[f])
    {
      var pending := errors.Keys;
      while pending != {}
        invariant pending <= errors.Keys
        invariant shown == old(shown) + map f | f in errors.Keys - pending :: Message(errors[f])
        decreases pending
      {
        var f :| f in pending;
        shown := shown[f := Message(errors[f])];
        pending := pending - {f};
      }
      assert Annotations(errors) == map f | f in errors.Keys - pending :: Message(errors[f]);
    }

    /** Removes the old annotations, then shows the new ones: afterwards exactly the messages of `errors` are shown. */
    method Refresh(errors: map<Field, Error>)
      modifies this
      ensures shown == Annotations(errors)
    {
      Clear();
      ShowAll(errors);
    }
  }

  /**
   * `submitAppForm`. The previous annotations are always cleared. On a
   * non-empty error map the annotations are exactly the errors' messages, the store is
   * untouched and the result is false; otherwise the collected record becomes
   * the head of the stored list, the rest of the list is unchanged, and the
   * page navigates to `redirect`.
   */
  method SubmitAppForm(store: Store, display: ErrorDisplay, form: AppForm, redirect: JsString, parseUrl: UrlParser)
    returns (ok: bool, outcome: SubmitOutcome)
    modifies store, display
    ensures ok <==> Validate(Collect(form), parseUrl) == map[]
    ensures ok <==> Acceptable(Collect(form), parseUrl)
    ensures display.shown == Annotations(Validate(Collect(form), parseUrl))
    ensures !ok ==> outcome == Rejected(Validate(Collect(form), parseUrl)) && store.slot == old(store.slot)
    ensures ok ==> outcome == Navigate(redirect)
    ensures ok ==> store.slot == Stored([Collect(form)] + LoadedApps(old(store.slot)))
  {
    var data := Collect(form);
    var errors := Validate(data, parseUrl);
    display.Refresh(errors);
    if errors != map[] {
      return false, Rejected(errors);
    }
    var apps := store.Load();
    apps := [data] + apps;
    store.Save(apps);
    ok, outcome := true, Navigate(redirect);
  }

  /**
   * The round trip of a successful submission: loading afterwards yields the
   * new record at index 0 followed by the list as it was before.
   */
  method SubmitThenLoad(store: Store, display: ErrorDisplay, form: AppForm, parseUrl: UrlParser)
    returns (before: seq<AppRecord>, ok: bool, after: seq<AppRecord>)
    modifies store, display
    ensures ok ==> |after| == |before| + 1 && after[0] == Collect(form) && after[1..] == before
    ensures !ok ==> after == before
  {
    before := store.Load();
    var outcome;
    ok, outcome := SubmitAppForm(store, display, form, AppsPage, parseUrl);
    after := store.Load();
  }
}
