/**
 * The subscription plan form (src/components/subscriptions/SubscriptionForm.tsx):
 * its data, the defaults merged with `initialData`, the field-by-field
 * validation, the feature-list updaters and the submit sequence.
 */
module SubscriptionForm {
  import opened Wrappers
  import opened Text
  import opened Sequences

  datatype Duration = Duration(value: int, unit: string)

  /** `SubscriptionFormData`; `price` is a real number, the counts are integers. */
  datatype FormData = FormData(
    name: string,
    description: string,
    price: real,
    currency: string,
    duration: Duration,
    features: seq<string>,
    status: string,
    trialPeriod: Option<int>,
    maxStores: int,
    maxProducts: int,
    supportLevel: string,
    apiAccess: bool,
    customDomain: bool,
    analytics: string)

  /** `Partial<SubscriptionFormData>`: a field that is `None` is not present. */
  datatype PartialFormData = PartialFormData(
    name: Option<string>,
    description: Option<string>,
    price: Option<real>,
    currency: Option<string>,
    duration: Option<Duration>,
    features: Option<seq<string>>,
    status: Option<string>,
    trialPeriod: Option<int>,
    maxStores: Option<int>,
    maxProducts: Option<int>,
    supportLevel: Option<string>,
    apiAccess: Option<bool>,
    customDomain: Option<bool>,
    analytics: Option<string>)

  const NoFields := PartialFormData(None, None, None, None, None, None, None, None, None, None, None, None, None, None)

  /** `defaultFormData`. */
  const Defaults := FormData("", "", 0.0, "USD", Duration(1, "months"), [""], "draft", Some(0), 1, 100,
                             "basic", false, false, "basic")

  /** `{ ...base, ...p }`: every field present in `p` overrides the one in `base`, every absent one is kept. */
  function Merge(base: FormData, p: PartialFormData): (r: FormData)
    ensures r.name == (if p.name.Some? then p.name.value else base.name)
    ensures r.description == (if p.description.Some? then p.description.value else base.description)
    ensures r.price == (if p.price.Some? then p.price.value else base.price)
    ensures r.currency == (if p.currency.Some? then p.currency.value else base.currency)
    ensures r.duration == (if p.duration.Some? then p.duration.value else base.duration)
    ensures r.features == (if p.features.Some? then p.features.value else base.features)
    ensures r.status == (if p.status.Some? then p.status.value else base.status)
    ensures r.trialPeriod == (if p.trialPeriod.Some? then p.trialPeriod else base.trialPeriod)
    ensures r.maxStores == (if p.maxStores.Some? then p.maxStores.value else base.maxStores)
    ensures r.maxProducts == (if p.maxProducts.Some? then p.maxProducts.value else base.maxProducts)
    ensures r.supportLevel == (if p.supportLevel.Some? then p.supportLevel.value else base.supportLevel)
    ensures r.apiAccess == (if p.apiAccess.Some? then p.apiAccess.value else base.apiAccess)
    ensures r.customDomain == (if p.customDomain.Some? then p.customDomain.value else base.customDomain)
    ensures r.analytics == (if p.analytics.Some? then p.analytics.value else base.analytics)
    ensures p == NoFields ==> r == base
  {
    FormData(
      p.name.GetOr(base.name), p.description.GetOr(base.description), p.price.GetOr(base.price),
      p.currency.GetOr(base.currency), p.duration.GetOr(base.duration), p.features.GetOr(base.features),
      p.status.GetOr(base.status),
      if p.trialPeriod.Some? then p.trialPeriod else base.trialPeriod,
      p.maxStores.GetOr(base.maxStores), p.maxProducts.GetOr(base.maxProducts),
      p.supportLevel.GetOr(base.supportLevel), p.apiAccess.GetOr(base.apiAccess),
      p.customDomain.GetOr(base.customDomain), p.analytics.GetOr(base.analytics))
  }

  /** The initial state `{ ...defaultFormData, ...initialData }`; spreading `undefined` adds nothing. */
  function InitialFormData(init: Option<PartialFormData>): FormData {
    Merge(Defaults, init.GetOr(NoFields))
  }

  /**
   * Without initial data the form starts from the defaults; with it, the
   * form is the defaults with every field the initial data holds taken from
   * it, field by field as `Merge` states.
   */
  lemma InitialFormDataSpec(init: Option<PartialFormData>)
    ensures init.None? ==> InitialFormData(init) == Defaults
    ensures init.Some? ==> InitialFormData(init) == Merge(Defaults, init.value)
  {
  }

  // ---------------------------------------------------------------------
  // Validation

  /** The keys `validateForm` can report, in the order it checks them. */
  const CheckedKeys: seq<string> := ["name", "description", "price", "duration", "maxStores", "maxProducts", "features"]

  /** The message each check reports, in the same order. */
  const Messages: seq<string> := [
    "Plan name is required",
    "Description is required",
    "Price must be greater than 0",
    "Duration must be greater than 0",
    "Max stores must be greater than 0",
    "Max products must be greater than 0",
    "At least one feature is required"]

  /** A feature entry counts when it is not blank (`f.trim()` is truthy). */
  predicate NonBlank(s: string) {
    !IsBlank(s)
  }

  /** Some feature entry is not blank. */
  predicate HasFeature(features: seq<string>) {
    exists i :: 0 <= i < |features| && NonBlank(features[i])
  }

  /** Whether check number `i`, the one reported under `CheckedKeys[i]`, fails for `f`. */
  predicate FailsAt(f: FormData, i: nat) {
    if i == 0 then IsBlank(f.name)
    else if i == 1 then IsBlank(f.description)
    else if i == 2 then f.price <= 0.0
    else if i == 3 then f.duration.value <= 0
    else if i == 4 then f.maxStores <= 0
    else if i == 5 then f.maxProducts <= 0
    else if i == 6 then !HasFeature(f.features)
    else false
  }

  /** The error map after the first `n` checks, each adding its key and message when it fails. */
  function ErrorsUpTo(f: FormData, n: nat): map<string, string>
    requires n <= |CheckedKeys|
  {
    if n == 0 then map[]
    else if FailsAt(f, n - 1) then ErrorsUpTo(f, n - 1)[CheckedKeys[n - 1] := Messages[n - 1]]
    else ErrorsUpTo(f, n - 1)
  }

  /**
   * Check `n` turns the map of the first `n` checks into that of the first
   * `n + 1`: it adds its own key, with its message, exactly when it fails.
   */
  lemma ErrorsStep(f: FormData, n: nat, before: map<string, string>, after: map<string, string>)
    requires n < |CheckedKeys| && before == ErrorsUpTo(f, n)
    requires FailsAt(f, n) ==> after == before[CheckedKeys[n] := Messages[n]]
    requires !FailsAt(f, n) ==> after == before
    ensures after == ErrorsUpTo(f, n + 1)
  {
  }

  /** The error map of `f`: every check applied in order. */
  function ExpectedErrors(f: FormData): map<string, string> {
    ErrorsUpTo(f, |CheckedKeys|)
  }

  /** No two checks report under the same key. */
  lemma KeysDistinct()
    ensures forall i, j :: 0 <= i < j < |CheckedKeys| ==> CheckedKeys[i] != CheckedKeys[j]
  {
  }

  /**
   * After the first `n` checks the map holds the key of each of them exactly
   * when it failed, with that check's message, and no other key.
   */
  lemma {:induction false} ErrorsUpToSpec(f: FormData, n: nat)
    requires n <= |CheckedKeys|
    ensures forall k :: k in ErrorsUpTo(f, n) ==> k in CheckedKeys[..n]
    ensures forall i :: 0 <= i < n ==> (CheckedKeys[i] in ErrorsUpTo(f, n) <==> FailsAt(f, i))
    ensures forall i :: 0 <= i < n && CheckedKeys[i] in ErrorsUpTo(f, n) ==> ErrorsUpTo(f, n)[CheckedKeys[i]] == Messages[i]
  {
    if n > 0 {
      ErrorsUpToSpec(f, n - 1);
      KeysDistinct();
      var prev, e := ErrorsUpTo(f, n - 1), ErrorsUpTo(f, n);
      forall k | k in e ensures k in CheckedKeys[..n] {
        if k != CheckedKeys[n - 1] {
          assert k in CheckedKeys[..n - 1];
        }
      }
      forall i | 0 <= i < n - 1
        ensures (CheckedKeys[i] in e <==> FailsAt(f, i))
        ensures CheckedKeys[i] in e ==> e[CheckedKeys[i]] == Messages[i]
      {
        assert CheckedKeys[i] != CheckedKeys[n - 1];
      }
    }
  }

  /**
   * The error map holds one entry per failed check, under that check's key
   * and with that check's message, and nothing else.
   */
  lemma ExpectedErrorsSpec(f: FormData)
    ensures forall k :: k in ExpectedErrors(f) ==> k in CheckedKeys
    ensures forall i :: 0 <= i < |CheckedKeys| ==> (CheckedKeys[i] in ExpectedErrors(f) <==> FailsAt(f, i))
    ensures forall i :: 0 <= i < |CheckedKeys| && CheckedKeys[i] in ExpectedErrors(f) ==>
      ExpectedErrors(f)[CheckedKeys[i]] == Messages[i]
  {
    ErrorsUpToSpec(f, |CheckedKeys|);
    assert CheckedKeys[..|CheckedKeys|] == CheckedKeys;
  }

  /** Each check and message written out, as `validateForm` spells them. */
  lemma CheckFacts(f: FormData)
    ensures CheckedKeys[0] == "name" && Messages[0] == "Plan name is required"
    ensures CheckedKeys[1] == "description" && Messages[1] == "Description is required"
    ensures CheckedKeys[2] == "price" && Messages[2] == "Price must be greater than 0"
    ensures CheckedKeys[3] == "duration" && Messages[3] == "Duration must be greater than 0"
    ensures CheckedKeys[4] == "maxStores" && Messages[4] == "Max stores must be greater than 0"
    ensures CheckedKeys[5] == "maxProducts" && Messages[5] == "Max products must be greater than 0"
    ensures CheckedKeys[6] == "features" && Messages[6] == "At least one feature is required"
    ensures |CheckedKeys| == 7
    ensures FailsAt(f, 6) <==> ValidFeatures(f.features) == []
  {
  }

  /** A form is valid when every individual requirement holds. */
  predicate FormValid(f: FormData) {
    && NonBlank(f.name) && NonBlank(f.description)
    && f.price > 0.0 && f.duration.value > 0
    && f.maxStores > 0 && f.maxProducts > 0
    && HasFeature(f.features)
  }

  /** The error map is empty exactly when the form is valid. */
  lemma NoErrorsIffValid(f: FormData)
    ensures ExpectedErrors(f) == map[] <==> FormValid(f)
  {
    ExpectedErrorsSpec(f);
    var e := ExpectedErrors(f);
    if e == map[] {
      assert !FailsAt(f, 0) && !FailsAt(f, 1) && !FailsAt(f, 2) && !FailsAt(f, 3);
      assert !FailsAt(f, 4) && !FailsAt(f, 5) && !FailsAt(f, 6);
    }
    if FormValid(f) {
      assert forall i :: 0 <= i < |CheckedKeys| ==> !FailsAt(f, i);
      assert e.Keys == {};
    }
  }

  /** `formData.features.filter(f => f.trim())`. */
  function ValidFeatures(features: seq<string>): (r: seq<string>)
    ensures SubsequenceOf(r, features)
    ensures forall x :: x in r <==> x in features && NonBlank(x)
    ensures forall x :: multiset(r)[x] == (if NonBlank(x) then multiset(features)[x] else 0)
    ensures r != [] <==> HasFeature(features)
  {
    var r := Filter(features, x => NonBlank(x));
    assert HasFeature(features) ==> r != [] by {
      if HasFeature(features) {
        var i :| 0 <= i < |features| && NonBlank(features[i]);
        assert features[i] in r;
      }
    }
    r
  }

  /**
   * `validateForm`: fills the error map check by check.  The map it builds is
   * the specification's, and it reports valid exactly when the map is empty.
   */
  method ValidateForm(f: FormData) returns (errors: map<string, string>, valid: bool)
    ensures errors == ExpectedErrors(f)
    ensures valid <==> errors == map[]
    ensures valid <==> FormValid(f)
  {
    errors := map[];
    CheckFacts(f);
    ghost var before := errors;
    if IsBlank(f.name) {
      errors := errors["name" := "Plan name is required"];
    }
    ErrorsStep(f, 0, before, errors);
    before := errors;
    if IsBlank(f.description) {
      errors := errors["description" := "Description is required"];
    }
    ErrorsStep(f, 1, before, errors);
    before := errors;
    if f.price <= 0.0 {
      errors := errors["price" := "Price must be greater than 0"];
    }
    ErrorsStep(f, 2, before, errors);
    before := errors;
    if f.duration.value <= 0 {
      errors := errors["duration" := "Duration must be greater than 0"];
    }
    ErrorsStep(f, 3, before, errors);
    before := errors;
    if f.maxStores <= 0 {
      errors := errors["maxStores" := "Max stores must be greater than 0"];
    }
    ErrorsStep(f, 4, before, errors);
    before := errors;
    if f.maxProducts <= 0 {
      errors := errors["maxProducts" := "Max products must be greater than 0"];
    }
    ErrorsStep(f, 5, before, errors);
    before := errors;
    var validFeatures := ValidFeatures(f.features);
    if |validFeatures| == 0 {
      errors := errors["features" := "At least one feature is required"];
    }
    ErrorsStep(f, 6, before, errors);
    valid := |errors| == 0;
    NoErrorsIffValid(f);
  }

  // ---------------------------------------------------------------------
  // Feature list updaters and the submitted data

  /** `addFeature`: appends one empty entry. */
  function AddFeature(f: FormData): (r: FormData)
    ensures r.features == f.features + [""]
    ensures r == f.(features := r.features)
  {
    f.(features := f.features + [""])
  }

  /** `removeFeature(index)`. */
  function RemoveFeature(f: FormData, index: int): FormData {
    f.(features := RemoveIndex(f.features, index))
  }

  /** `updateFeature(index, value)`. */
  function UpdateFeature(f: FormData, index: int, value: string): FormData {
    f.(features := ReplaceIndex(f.features, index, value))
  }

  /**
   * `removeFeature(i)` drops exactly entry `i` when it exists, keeping the
   * order of the rest, and changes nothing otherwise; no other field changes.
   */
  lemma RemoveFeatureSpec(f: FormData, index: int)
    ensures RemoveFeature(f, index) == f.(features :=
      if 0 <= index < |f.features| then f.features[..index] + f.features[index + 1..] else f.features)
  {
    RemoveIndexSpec(f.features, index);
  }

  /** Removing the entry that `addFeature` appended gives back the form. */
  lemma RemoveUndoesAdd(f: FormData)
    ensures RemoveFeature(AddFeature(f), |f.features|) == f
  {
    var s := f.features + [""];
    RemoveIndexSpec(s, |f.features|);
    assert s[..|f.features|] + s[|f.features| + 1..] == f.features;
  }

  /**
   * `updateFeature(i, v)` keeps the length, puts `v` at `i`, leaves every
   * other entry and every other field alone, and is the identity when `i` is
   * out of range.
   */
  lemma UpdateFeatureSpec(f: FormData, index: int, value: string)
    ensures |UpdateFeature(f, index, value).features| == |f.features|
    ensures UpdateFeature(f, index, value) == f.(features :=
      if 0 <= index < |f.features| then f.features[index := value] else f.features)
  {
    ReplaceIndexSpec(f.features, index, value);
  }

  /** Appending the empty entry never changes whether the form is valid. */
  lemma AddFeatureKeepsValidity(f: FormData)
    ensures FormValid(AddFeature(f)) <==> FormValid(f)
  {
    var s := AddFeature(f).features;
    if HasFeature(s) {
      var i :| 0 <= i < |s| && NonBlank(s[i]);
      assert f.features[i] == s[i];
    }
    if HasFeature(f.features) {
      var i :| 0 <= i < |f.features| && NonBlank(f.features[i]);
      assert s[i] == f.features[i];
    }
  }

  /**
   * The submitted data: the form data with the blank features filtered out,
   * the rest in their original order, and every other field unchanged.
   */
  function Cleaned(f: FormData): (c: FormData)
    ensures c == f.(features := c.features)
    ensures SubsequenceOf(c.features, f.features)
    ensures forall x :: x in c.features <==> x in f.features && NonBlank(x)
    ensures forall x :: multiset(c.features)[x] == (if NonBlank(x) then multiset(f.features)[x] else 0)
    ensures FormValid(f) ==> c.features != []
  {
    f.(features := ValidFeatures(f.features))
  }

  // ---------------------------------------------------------------------
  // The component's state

  class SubscriptionFormComponent {
    var formData: FormData
    var errors: map<string, string>
    var isSubmitting: bool

    constructor (initialData: Option<PartialFormData>)
      ensures formData == InitialFormData(initialData)
      ensures errors == map[] && !isSubmitting
    {
      formData := InitialFormData(initialData);
      errors := map[];
      isSubmitting := false;
    }

    /**
     * What the form does not do: re-read `initialData` when the prop
     * changes and spread it over the current data, as the user form's effect
     * does (src/components/users/UserForm.tsx:54-61).  The form as written
     * reads `initialData` only when it is mounted.
     */
    method SyncInitialData(initialData: Option<PartialFormData>)
      modifies this
      ensures formData == if initialData.Some? then Merge(old(formData), initialData.value) else old(formData)
      ensures errors == old(errors) && isSubmitting == old(isSubmitting)
    {
      if initialData.Some? {
        formData := Merge(formData, initialData.value);
      }
    }

    method AddFeatureEntry()
      modifies this
      ensures formData == AddFeature(old(formData))
      ensures errors == old(errors) && isSubmitting == old(isSubmitting)
    {
      formData := AddFeature(formData);
    }

    method RemoveFeatureEntry(index: int)
      modifies this
      ensures formData == RemoveFeature(old(formData), index)
      ensures errors == old(errors) && isSubmitting == old(isSubmitting)
    {
      formData := RemoveFeature(formData, index);
    }

    method UpdateFeatureEntry(index: int, value: string)
      modifies this
      ensures formData == UpdateFeature(old(formData), index, value)
      ensures errors == old(errors) && isSubmitting == old(isSubmitting)
    {
      formData := UpdateFeature(formData, index, value);
    }

    /**
     * `handleSubmit`.  `onSubmitThrows` says whether the awaited `onSubmit`
     * raised.  An invalid form records its errors and submits nothing; a
     * valid one submits the cleaned data, asks to close only when `onSubmit`
     * completed, and ends with `isSubmitting` false either way.
     */
    method HandleSubmit(onSubmitThrows: bool) returns (submitted: Option<FormData>, closeCalled: bool)
      modifies this
      ensures formData == old(formData)
      ensures errors == ExpectedErrors(formData)
      ensures submitted.Some? <==> FormValid(formData)
      ensures submitted.Some? ==> submitted.value == Cleaned(formData)
      ensures closeCalled <==> FormValid(formData) && !onSubmitThrows
      ensures !FormValid(formData) ==> isSubmitting == old(isSubmitting)
      ensures FormValid(formData) ==> !isSubmitting
    {
      var newErrors, valid := ValidateForm(formData);
      errors := newErrors;
      if !valid {
        return None, false;
      }
      isSubmitting := true;
      submitted := Some(Cleaned(formData));
      closeCalled := !onSubmitThrows;
      isSubmitting := false;
    }
  }
}
