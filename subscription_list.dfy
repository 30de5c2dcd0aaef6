/**
 * The subscription plan table (src/components/subscriptions/SubscriptionList.tsx):
 * the search filter, the duration label, the record handed to `onEdit`, and
 * the feature preview of each row.
 */
module SubscriptionList {
  import opened Wrappers
  import opened Text
  import opened Sequences
  import Api
  import SubscriptionForm

  /** A listed plan. */
  datatype Subscription = Subscription(
    id: string,
    name: string,
    description: string,
    price: real,
    duration: SubscriptionForm.Duration,
    features: seq<string>,
    status: string,
    createdAt: string,
    updatedAt: string)

  /**
   * What `onEdit` receives: the partial form data, and the plan id when the
   * record carries one.
   */
  datatype EditRecord = EditRecord(data: SubscriptionForm.PartialFormData, id: Option<string>)

  // ---------------------------------------------------------------------
  // Search

  /** The lowercased search term occurs in the lowercased name or description. */
  predicate MatchesSearch(s: Subscription, term: string) {
    Contains(Lower(s.name), Lower(term)) || Contains(Lower(s.description), Lower(term))
  }

  /**
   * `filteredSubscriptions`: the plans matching the search, in their
   * original order; the term is not trimmed and there is no status filter.
   */
  function FilterSubscriptions(subs: seq<Subscription>, term: string): (r: seq<Subscription>)
    ensures SubsequenceOf(r, subs)
    ensures forall s :: s in r <==> s in subs && MatchesSearch(s, term)
    ensures forall s :: multiset(r)[s] == (if MatchesSearch(s, term) then multiset(subs)[s] else 0)
  {
    Filter(subs, s => MatchesSearch(s, term))
  }

  /** The empty search keeps every plan, in order. */
  lemma EmptySearchKeepsAll(subs: seq<Subscription>)
    ensures FilterSubscriptions(subs, "") == subs
  {
    assert Lower("") == "";
    forall i | 0 <= i < |subs| ensures MatchesSearch(subs[i], "") {
      ContainsEmpty(Lower(subs[i].name));
    }
  }

  /** The status plays no part: plans differing only in status are kept or dropped together. */
  lemma StatusIgnored(s: Subscription, status: string, term: string)
    ensures MatchesSearch(s.(status := status), term) <==> MatchesSearch(s, term)
  {
  }

  /** A search term with a leading space is not trimmed, so it does not match a name that merely contains the rest. */
  lemma SearchTermNotTrimmed()
    ensures !MatchesSearch(Subscription("", "pro", "", 0.0, SubscriptionForm.Duration(1, "month"), [], "", "", ""), " pro")
  {
    var hay := Lower("pro");
    assert |hay| == 3;
    assert Lower(" pro") == " pro";
    assert Lower("") == "";
  }

  // ---------------------------------------------------------------------
  // Duration label

  /**
   * `${value} ${unit}${value > 1 ? 's' : ''}`: the value's decimal text, a
   * space, the unit, and one trailing `s` exactly when the value exceeds one.
   */
  function FormatDuration(d: SubscriptionForm.Duration): (r: string)
    ensures var t := Api.IntText(d.value);
      && |r| == |t| + 1 + |d.unit| + (if d.value > 1 then 1 else 0)
      && r[..|t|] == t
      && r[|t|] == ' '
      && r[|t| + 1..|t| + 1 + |d.unit|] == d.unit
      && (d.value > 1 ==> r[|r| - 1] == 's')
  {
    Api.IntText(d.value) + " " + d.unit + (if d.value > 1 then "s" else "")
  }

  /**
   * The label starts with the number's digits, which read back as the
   * duration's value, followed by a space and the unit; it ends in an extra
   * `s` exactly when the value exceeds one.
   */
  lemma FormatDurationSpec(d: SubscriptionForm.Duration)
    requires d.value >= 0
    ensures var digits := Api.NatText(d.value); var r := FormatDuration(d);
      && r[..|digits|] == digits
      && Api.DigitsValue(digits) == d.value
      && r[|digits|] == ' '
      && r[|digits| + 1..|digits| + 1 + |d.unit|] == d.unit
      && (d.value > 1 <==> |r| == |digits| + |d.unit| + 2)
      && (d.value > 1 ==> r[|r| - 1] == 's')
  {
    Api.NatTextRoundTrip(d.value);
    var digits := Api.NatText(d.value);
    assert Api.IntText(d.value) == digits;
    var r := FormatDuration(d);
    assert r == digits + [' '] + d.unit + (if d.value > 1 then "s" else "");
  }

  /** One month is singular, three months plural. */
  lemma FormatDurationExamples()
    ensures FormatDuration(SubscriptionForm.Duration(1, "month")) == "1 month"
    ensures FormatDuration(SubscriptionForm.Duration(3, "month")) == "3 months"
  {
    assert Api.IntText(1) == "1" by {
      assert Api.NatText(1) == [Api.DigitChar(1)];
    }
    assert Api.IntText(3) == "3" by {
      assert Api.NatText(3) == [Api.DigitChar(3)];
    }
  }

  // ---------------------------------------------------------------------
  // The record handed to onEdit

  /**
   * The partial form data `handleEdit` builds: the plan's name, description,
   * price, duration, features and status, the fixed currency, limits,
   * support level and analytics, and the two flags read off the feature list.
   */
  function EditPayload(s: Subscription): (p: SubscriptionForm.PartialFormData)
    ensures p.name == Some(s.name) && p.description == Some(s.description) && p.price == Some(s.price)
    ensures p.duration == Some(s.duration) && p.features == Some(s.features) && p.status == Some(s.status)
    ensures p.currency == Some("IDR") && p.maxStores == Some(5) && p.maxProducts == Some(1000)
    ensures p.supportLevel == Some("priority") && p.analytics == Some("advanced")
    ensures p.apiAccess == Some("API access" in s.features)
    ensures p.customDomain == Some("Custom domain" in s.features)
    ensures p.trialPeriod.None?
  {
    SubscriptionForm.PartialFormData(
      Some(s.name), Some(s.description), Some(s.price), Some("IDR"), Some(s.duration),
      Some(s.features), Some(s.status), None, Some(5), Some(1000), Some("priority"),
      Some("API access" in s.features), Some("Custom domain" in s.features), Some("advanced"))
  }

  /**
   * `handleEdit` as written: nothing when no `onEdit` is supplied, else the
   * payload alone; the plan's id is not part of what is handed over.
   */
  function HandleEditAsWritten(hasOnEdit: bool, s: Subscription): (r: Option<EditRecord>)
    ensures r.Some? <==> hasOnEdit
    ensures r.Some? ==> r.value.data == EditPayload(s) && r.value.id.None?
  {
    if hasOnEdit then Some(EditRecord(EditPayload(s), None)) else None
  }

  /**
   * `handleEdit` as the page needs it: the same payload together with the
   * plan's id, which the update handler requires.
   */
  function HandleEdit(hasOnEdit: bool, s: Subscription): (r: Option<EditRecord>)
    ensures r.Some? <==> hasOnEdit
    ensures r.Some? ==> r.value.data == EditPayload(s) && r.value.id == Some(s.id)
  {
    if hasOnEdit then Some(EditRecord(EditPayload(s), Some(s.id))) else None
  }

  /**
   * Spreading the edit payload over whatever a form holds (a form mounted
   * with it starts from the defaults) fills in the plan's own fields, the
   * fixed values and the flags read off the features; only the trial period,
   * which the payload leaves out, is kept from before.
   */
  lemma EditPrefillsForm(base: SubscriptionForm.FormData, s: Subscription)
    ensures var f := SubscriptionForm.Merge(base, EditPayload(s));
      && f.name == s.name && f.description == s.description && f.price == s.price
      && f.duration == s.duration && f.features == s.features && f.status == s.status
      && f.currency == "IDR" && f.maxStores == 5 && f.maxProducts == 1000
      && f.supportLevel == "priority" && f.analytics == "advanced"
      && f.trialPeriod == base.trialPeriod
      && (f.apiAccess <==> "API access" in s.features)
      && (f.customDomain <==> "Custom domain" in s.features)
  {
  }

  // ---------------------------------------------------------------------
  // Feature preview

  /** The preview cell: the first three features, and `+n more` with the count of the rest. */
  function Preview(features: seq<string>): (r: (seq<string>, Option<nat>))
    ensures |r.0| == if |features| > 3 then 3 else |features|
    ensures r.0 == features[..|r.0|]
    ensures r.1.Some? <==> |features| > 3
    ensures r.1.Some? ==> r.1.value == |features| - 3
  {
    if |features| > 3 then (features[..3], Some(|features| - 3)) else (features, None)
  }

  /** Nothing is lost: the shown features and the counted rest make up the whole list. */
  lemma PreviewAccountsForAll(features: seq<string>)
    ensures var (shown, more) := Preview(features);
      && shown + features[|shown|..] == features
      && |shown| + more.GetOr(0) == |features|
  {
    var (shown, more) := Preview(features);
    assert shown + features[|shown|..] == features[..|shown|] + features[|shown|..];
  }
}
