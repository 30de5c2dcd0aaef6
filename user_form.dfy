/**
 * The user create/edit form (src/components/users/UserForm.tsx): the form
 * record, the defaults merged with `initialData`, the email, password and
 * name checks, the routing of an input's `name` to a nested or top-level
 * field, and the submit sequence.
 *
 * `handleInputChange` writes to the key named by the input, so the form
 * record is two dictionaries: the top-level fields and `userDetails`.
 */
module UserForm {
  import opened Wrappers
  import opened Text

  /** A field value: a string, a checkbox flag, or `null`. */
  datatype FieldValue = Str(s: string) | Flag(b: bool) | Null

  datatype UserFormData = UserFormData(fields: map<string, FieldValue>, details: map<string, FieldValue>)

  /** `Partial<UserFormData>`: the top-level keys present, and `userDetails` when present. */
  datatype PartialUserFormData = PartialUserFormData(fields: map<string, FieldValue>, details: Option<map<string, FieldValue>>)

  datatype Mode = Create | Edit

  /** `defaultFormData`. */
  const Defaults := UserFormData(
    map["email" := Str(""), "password" := Str(""), "role" := Str("user"),
        "isEmployee" := Flag(false), "subscriptionId" := Null],
    map["name" := Str(""), "phoneNumber" := Str(""), "address" := Str("")])

  /** `{ ...prev, ...p }`: top-level keys of `p` override; a present `userDetails` replaces the whole object. */
  function Merge(prev: UserFormData, p: PartialUserFormData): (r: UserFormData)
    ensures forall k :: k in r.fields <==> k in prev.fields || k in p.fields
    ensures forall k :: k in p.fields ==> r.fields[k] == p.fields[k]
    ensures forall k :: k in prev.fields && k !in p.fields ==> r.fields[k] == prev.fields[k]
    ensures r.details == if p.details.Some? then p.details.value else prev.details
  {
    UserFormData(prev.fields + p.fields, p.details.GetOr(prev.details))
  }

  /** The initial state `{ ...defaultFormData, ...initialData }`. */
  function InitialFormData(init: Option<PartialUserFormData>): UserFormData {
    if init.Some? then Merge(Defaults, init.value) else Defaults
  }

  /**
   * The shape the declared `UserFormData` type promises for the fields the
   * checks read: `email` and `userDetails.name` are strings, and `password`,
   * when present, is a string.
   */
  predicate WellTyped(f: UserFormData) {
    && "email" in f.fields && f.fields["email"].Str?
    && "name" in f.details && f.details["name"].Str?
    && ("password" in f.fields ==> f.fields["password"].Str?)
  }

  function Email(f: UserFormData): string
    requires WellTyped(f)
  {
    f.fields["email"].s
  }

  /** `formData.password`, `None` when the key is absent. */
  function Password(f: UserFormData): Option<string>
    requires WellTyped(f)
  {
    if "password" in f.fields then Some(f.fields["password"].s) else None
  }

  function Name(f: UserFormData): string
    requires WellTyped(f)
  {
    f.details["name"].s
  }

  /**
   * Initial data that keeps the declared types: a present `email` or
   * `password` is a string, and a present `userDetails` holds a string `name`.
   */
  predicate KeepsDeclaredShape(p: PartialUserFormData) {
    && ("email" in p.fields ==> p.fields["email"].Str?)
    && ("password" in p.fields ==> p.fields["password"].Str?)
    && (p.details.Some? ==> "name" in p.details.value && p.details.value["name"].Str?)
  }

  /**
   * The defaults, and the defaults merged with any initial data of the
   * declared types, give a well-typed form; without initial data the three
   * checked fields start empty.
   */
  lemma InitialFormDataWellTyped(init: Option<PartialUserFormData>)
    requires init.Some? ==> KeepsDeclaredShape(init.value)
    ensures WellTyped(InitialFormData(init))
    ensures init.None? ==> Email(InitialFormData(init)) == "" && Name(InitialFormData(init)) == ""
    ensures init.None? ==> Password(InitialFormData(init)) == Some("")
    ensures init.Some? && "email" in init.value.fields ==> Email(InitialFormData(init)) == init.value.fields["email"].s
    ensures init.Some? && "email" !in init.value.fields ==> Email(InitialFormData(init)) == ""
  {
  }

  // ---------------------------------------------------------------------
  // The email pattern

  /** A character `[^\s@]` accepts. */
  predicate PlainChar(c: char) {
    !IsSpace(c) && c != '@'
  }

  /** `[^\s@]+`: a non-empty run of plain characters. */
  predicate PlainRun(t: string) {
    |t| > 0 && forall k :: 0 <= k < |t| ==> PlainChar(t[k])
  }

  /**
   * `/^[^\s@]+@[^\s@]+\.[^\s@]+$/.test(s)`: `s` is `a@b.c` with `a`, `b`
   * and `c` non-empty runs of plain characters.
   */
  predicate MatchesEmailPattern(s: string) {
    exists i, j | 0 <= i < j < |s| :: SplitsAsEmail(s, i, j)
  }

  /** `s` is `a@b.c` with the `@` at index `i`, the `.` at index `j`, and `a`, `b`, `c` plain runs. */
  predicate SplitsAsEmail(s: string, i: nat, j: nat)
    requires i < j < |s|
  {
    s[i] == '@' && s[j] == '.' && PlainRun(s[..i]) && PlainRun(s[i + 1..j]) && PlainRun(s[j + 1..])
  }

  /**
   * The shape in words: no white space, exactly one `@`, a non-empty part
   * before it, and a `.` in the part after it with at least one character
   * on each side.
   */
  predicate EmailShape(s: string) {
    && (forall k :: 0 <= k < |s| ==> !IsSpace(s[k]))
    && exists i :: 0 < i < |s| && s[i] == '@' && OnlyAt(s, i) && DotInside(s, i)
  }

  /** Index `i` is the only `@` of `s`. */
  predicate OnlyAt(s: string, i: nat) {
    forall k :: 0 <= k < |s| && s[k] == '@' ==> k == i
  }

  /** Some `.` lies strictly between index `i + 1` and the last index of `s`. */
  predicate DotInside(s: string, i: nat) {
    exists j :: i + 1 < j < |s| - 1 && s[j] == '.'
  }

  /** The pattern accepts exactly the strings of that shape. */
  lemma EmailPatternIffShape(s: string)
    ensures MatchesEmailPattern(s) <==> EmailShape(s)
  {
    if MatchesEmailPattern(s) {
      var i, j :| 0 <= i < j < |s| && SplitsAsEmail(s, i, j);
      forall k | 0 <= k < |s| ensures PlainChar(s[k]) || k == i || k == j {
        if k < i {
          assert s[k] == s[..i][k];
        } else if i < k < j {
          assert s[k] == s[i + 1..j][k - i - 1];
        } else if j < k {
          assert s[k] == s[j + 1..][k - j - 1];
        }
      }
      assert i > 0 && j + 1 < |s| && j > i + 1;
      assert DotInside(s, i);
      assert OnlyAt(s, i);
    }
    if EmailShape(s) {
      var i :| 0 < i < |s| && s[i] == '@' && OnlyAt(s, i) && DotInside(s, i);
      var j :| i + 1 < j < |s| - 1 && s[j] == '.';
      var a, b, c := s[..i], s[i + 1..j], s[j + 1..];
      forall k | 0 <= k < |a| ensures PlainChar(a[k]) {
        assert a[k] == s[k];
      }
      forall k | 0 <= k < |b| ensures PlainChar(b[k]) {
        assert b[k] == s[i + 1 + k];
      }
      forall k | 0 <= k < |c| ensures PlainChar(c[k]) {
        assert c[k] == s[j + 1 + k];
      }
      assert SplitsAsEmail(s, i, j);
    }
  }

  // ---------------------------------------------------------------------
  // Validation

  /** The email check: blank first, then the pattern. */
  function EmailError(email: string): Option<string> {
    if IsBlank(email) then Some("Email is required")
    else if !MatchesEmailPattern(email) then Some("Email is invalid")
    else None
  }

  /**
   * The password check: only in create mode, a blank or missing password
   * first, then a non-empty one shorter than six characters (untrimmed).
   */
  function PasswordError(mode: Mode, password: Option<string>): Option<string> {
    if mode == Create && IsBlank(password.GetOr("")) then Some("Password is required")
    else if mode == Create && password.Some? && password.value != "" && Utf16Length(password.value) < 6 then
      Some("Password must be at least 6 characters")
    else None
  }

  function NameError(name: string): Option<string> {
    if IsBlank(name) then Some("Name is required") else None
  }

  /** `m` with `k` set to the message when there is one. */
  function Put(m: map<string, string>, k: string, message: Option<string>): map<string, string> {
    if message.Some? then m[k := message.value] else m
  }

  /** The error map `validateForm` builds. */
  function ExpectedErrors(f: UserFormData, mode: Mode): map<string, string>
    requires WellTyped(f)
  {
    Put(Put(Put(map[], "email", EmailError(Email(f))), "password", PasswordError(mode, Password(f))),
        "name", NameError(Name(f)))
  }

  /** A blank email is reported as missing, a non-blank one of the wrong shape as invalid, and a well-shaped one not at all. */
  lemma EmailErrorSpec(email: string)
    ensures IsBlank(email) ==> EmailError(email) == Some("Email is required")
    ensures !IsBlank(email) && !EmailShape(email) ==> EmailError(email) == Some("Email is invalid")
    ensures EmailError(email).None? <==> EmailShape(email)
  {
    EmailPatternIffShape(email);
    if EmailShape(email) {
      assert !IsSpace(email[0]);
    }
  }

  /** In edit mode no password error is ever produced. */
  lemma EditModeHasNoPasswordError(password: Option<string>)
    ensures PasswordError(Edit, password).None?
  {
  }

  /**
   * In create mode a missing or blank password is required, a non-blank
   * one shorter than six characters is too short, and any other passes.
   */
  lemma CreateModePasswordRules(password: Option<string>)
    ensures (password.None? || IsBlank(password.value)) ==> PasswordError(Create, password) == Some("Password is required")
    ensures password.Some? && !IsBlank(password.value) && Utf16Length(password.value) < 6 ==>
      PasswordError(Create, password) == Some("Password must be at least 6 characters")
    ensures PasswordError(Create, password).None? <==> password.Some? && !IsBlank(password.value) && Utf16Length(password.value) >= 6
  {
  }

  /**
   * The length is counted in UTF-16 code units: three emoji make six units,
   * enough to pass, while three letters do not.
   */
  lemma PasswordLengthCountsCodeUnits()
    ensures PasswordError(Create, Some("\U{1F600}\U{1F600}\U{1F600}")).None?
    ensures PasswordError(Create, Some("abc")) == Some("Password must be at least 6 characters")
  {
    assert Utf16Length("\U{1F600}\U{1F600}\U{1F600}") == 6 by {
      assert "\U{1F600}\U{1F600}\U{1F600}"[1..] == "\U{1F600}\U{1F600}";
      assert "\U{1F600}\U{1F600}"[1..] == "\U{1F600}";
    }
    assert !IsBlank("\U{1F600}\U{1F600}\U{1F600}") by {
      assert !IsSpace("\U{1F600}\U{1F600}\U{1F600}"[0]);
    }
    assert !IsBlank("abc") by {
      assert !IsSpace("abc"[0]);
    }
  }

  /** Each check reports under its own key and nothing else is reported. */
  lemma ExpectedErrorsSpec(f: UserFormData, mode: Mode)
    requires WellTyped(f)
    ensures ExpectedErrors(f, mode).Keys <= {"email", "password", "name"}
    ensures "email" in ExpectedErrors(f, mode) <==> EmailError(Email(f)).Some?
    ensures "email" in ExpectedErrors(f, mode) ==> ExpectedErrors(f, mode)["email"] == EmailError(Email(f)).value
    ensures "password" in ExpectedErrors(f, mode) <==> PasswordError(mode, Password(f)).Some?
    ensures "password" in ExpectedErrors(f, mode) ==> ExpectedErrors(f, mode)["password"] == PasswordError(mode, Password(f)).value
    ensures "name" in ExpectedErrors(f, mode) <==> IsBlank(Name(f))
    ensures "name" in ExpectedErrors(f, mode) ==> ExpectedErrors(f, mode)["name"] == "Name is required"
  {
  }

  /** Every requirement, stated directly. */
  predicate FormValid(f: UserFormData, mode: Mode)
    requires WellTyped(f)
  {
    && EmailShape(Email(f))
    && (mode == Create ==> Password(f).Some? && !IsBlank(Password(f).value) && Utf16Length(Password(f).value) >= 6)
    && !IsBlank(Name(f))
  }

  /** The error map is empty exactly when the form is valid. */
  lemma NoErrorsIffValid(f: UserFormData, mode: Mode)
    requires WellTyped(f)
    ensures ExpectedErrors(f, mode) == map[] <==> FormValid(f, mode)
  {
    ExpectedErrorsSpec(f, mode);
    EmailErrorSpec(Email(f));
    CreateModePasswordRules(Password(f));
    if FormValid(f, mode) {
      assert ExpectedErrors(f, mode).Keys == {};
    }
  }

  /**
   * `validateForm`: fills the error map check by check, and is valid
   * exactly when the map stays empty.
   */
  method ValidateForm(f: UserFormData, mode: Mode) returns (errors: map<string, string>, valid: bool)
    requires WellTyped(f)
    ensures errors == ExpectedErrors(f, mode)
    ensures valid <==> errors == map[]
    ensures valid <==> FormValid(f, mode)
  {
    errors := map[];
    var email := f.fields["email"].s;
    if IsBlank(email) {
      errors := errors["email" := "Email is required"];
    } else if !MatchesEmailPattern(email) {
      errors := errors["email" := "Email is invalid"];
    }
    ghost var afterEmail := errors;
    assert afterEmail == Put(map[], "email", EmailError(Email(f)));
    var password := Password(f);
    if mode == Create && (password.None? || IsBlank(password.value)) {
      errors := errors["password" := "Password is required"];
    } else if mode == Create && password.Some? && password.value != "" && Utf16Length(password.value) < 6 {
      errors := errors["password" := "Password must be at least 6 characters"];
    }
    ghost var afterPassword := errors;
    assert afterPassword == Put(afterEmail, "password", PasswordError(mode, Password(f)));
    var name := f.details["name"].s;
    if IsBlank(name) {
      errors := errors["name" := "Name is required"];
    }
    assert errors == Put(afterPassword, "name", NameError(Name(f)));
    valid := |errors| == 0;
    NoErrorsIffValid(f, mode);
  }

  // ---------------------------------------------------------------------
  // Input routing

  /** `s.split('.')`. */
  function SplitDot(s: string): (parts: seq<string>)
    ensures |parts| >= 1
    ensures forall p :: p in parts ==> '.' !in p
    ensures '.' in s <==> |parts| >= 2
  {
    if s == [] then [""]
    else
      var rest := SplitDot(s[1..]);
      assert '.' in s <==> s[0] == '.' || '.' in s[1..] by {
        assert s == [s[0]] + s[1..];
      }
      if s[0] == '.' then [""] + rest
      else [[s[0]] + rest[0]] + rest[1..]
  }

  /** `parts.join('.')`. */
  function JoinDot(parts: seq<string>): string
    requires |parts| >= 1
  {
    if |parts| == 1 then parts[0] else parts[0] + "." + JoinDot(parts[1..])
  }

  /** Splitting at the dots and joining again gives back the name. */
  lemma {:induction false} SplitJoinRoundTrip(s: string)
    ensures JoinDot(SplitDot(s)) == s
  {
    if s != [] {
      SplitJoinRoundTrip(s[1..]);
      var rest := SplitDot(s[1..]);
      if s[0] == '.' {
        assert JoinDot([""] + rest) == "" + "." + JoinDot(rest);
        assert s == [s[0]] + s[1..];
      } else if |rest| == 1 {
        assert s == [s[0]] + s[1..];
      } else {
        var parts := [[s[0]] + rest[0]] + rest[1..];
        assert parts[1..] == rest[1..];
        assert JoinDot(rest) == rest[0] + "." + JoinDot(rest[1..]);
        assert s == [s[0]] + s[1..];
      }
    }
  }

  /** `name.split('.')[1]` used as a key; a missing part is `undefined`, whose key is "undefined". */
  function SecondSegment(name: string): string {
    var parts := SplitDot(name);
    if |parts| >= 2 then parts[1] else "undefined"
  }

  /** The parts of `e.target` the handler reads. */
  datatype InputEvent = InputEvent(name: string, value: string, isCheckbox: bool, checked: bool)

  /** `type === 'checkbox' ? checked : value`. */
  function EventValue(e: InputEvent): FieldValue {
    if e.isCheckbox then Flag(e.checked) else Str(e.value)
  }

  /** Whether the name addresses a `userDetails` field. */
  predicate IsDetailsName(name: string) {
    Contains(name, "userDetails.")
  }

  /** `handleInputChange`: the new form record for one change event. */
  function Routed(f: UserFormData, e: InputEvent): UserFormData {
    if IsDetailsName(e.name) then
      f.(details := f.details[SecondSegment(e.name) := EventValue(e)])
    else if e.name == "subscriptionId" then
      f.(fields := f.fields["subscriptionId" := if e.value == "" then Null else Str(e.value)])
    else
      f.(fields := f.fields[e.name := EventValue(e)])
  }

  /** A name containing `userDetails.` has a dot, so its second segment is a real part of the name. */
  lemma DetailsNameHasSegment(name: string)
    requires IsDetailsName(name)
    ensures |SplitDot(name)| >= 2 && SecondSegment(name) == SplitDot(name)[1]
  {
    var i :| 0 <= i <= |name| - 12 && OccursAt(name, "userDetails.", i);
    assert name[i + 11] == name[i..i + 12][11] == '.';
  }

  /**
   * A `userDetails.X` name updates only `userDetails.X`, and with the
   * value or the checked flag.
   */
  lemma DetailsRouting(f: UserFormData, e: InputEvent)
    requires IsDetailsName(e.name)
    ensures var r := Routed(f, e); var x := SecondSegment(e.name);
      && r.fields == f.fields
      && x in r.details && r.details[x] == (if e.isCheckbox then Flag(e.checked) else Str(e.value))
      && (forall k :: k != x ==> (k in r.details <==> k in f.details))
      && (forall k :: k != x && k in f.details ==> r.details[k] == f.details[k])
  {
  }

  /** `subscriptionId` becomes `null` for the empty selection and the chosen id otherwise. */
  lemma SubscriptionIdRouting(f: UserFormData, e: InputEvent)
    requires e.name == "subscriptionId"
    ensures Routed(f, e).details == f.details
    ensures Routed(f, e).fields == f.fields["subscriptionId" := if e.value == "" then Null else Str(e.value)]
  {
    var name := "subscriptionId";
    forall i | 0 <= i <= |name| - 12 ensures !OccursAt(name, "userDetails.", i) {
      assert name[i..i + 12][0] == name[i] && name[i..i + 12][1] == name[i + 1];
    }
  }

  /** Any other name updates the top-level field of that name and nothing else. */
  lemma TopLevelRouting(f: UserFormData, e: InputEvent)
    requires !IsDetailsName(e.name) && e.name != "subscriptionId"
    ensures Routed(f, e).details == f.details
    ensures e.name in Routed(f, e).fields && Routed(f, e).fields[e.name] == (if e.isCheckbox then Flag(e.checked) else Str(e.value))
    ensures forall k :: k != e.name ==> (k in Routed(f, e).fields <==> k in f.fields)
    ensures forall k :: k != e.name && k in f.fields ==> Routed(f, e).fields[k] == f.fields[k]
  {
  }

  /** A change from a text input or a select keeps the declared shape the checks rely on. */
  lemma TextChangeKeepsWellTyped(f: UserFormData, e: InputEvent)
    requires WellTyped(f) && !e.isCheckbox
    ensures WellTyped(Routed(f, e))
  {
  }

  // ---------------------------------------------------------------------
  // The component's state

  class UserFormComponent {
    var formData: UserFormData
    var errors: map<string, string>
    var isSubmitting: bool

    constructor (initialData: Option<PartialUserFormData>)
      ensures formData == InitialFormData(initialData)
      ensures errors == map[] && !isSubmitting
    {
      formData := InitialFormData(initialData);
      errors := map[];
      isSubmitting := false;
    }

    /** The effect run when `initialData` changes: present data is merged over the current form. */
    method SyncInitialData(initialData: Option<PartialUserFormData>)
      modifies this
      ensures formData == if initialData.Some? then Merge(old(formData), initialData.value) else old(formData)
      ensures errors == old(errors) && isSubmitting == old(isSubmitting)
    {
      if initialData.Some? {
        formData := Merge(formData, initialData.value);
      }
    }

    method HandleInputChange(e: InputEvent)
      modifies this
      ensures formData == Routed(old(formData), e)
      ensures errors == old(errors) && isSubmitting == old(isSubmitting)
    {
      var value := if e.isCheckbox then Flag(e.checked) else Str(e.value);
      if IsDetailsName(e.name) {
        var field := SecondSegment(e.name);
        formData := formData.(details := formData.details[field := value]);
      } else if e.name == "subscriptionId" {
        formData := formData.(fields := formData.fields[e.name := if e.value == "" then Null else Str(e.value)]);
      } else {
        formData := formData.(fields := formData.fields[e.name := value]);
      }
    }

    /**
     * `handleSubmit`.  `onSubmitThrows` says whether the awaited `onSubmit`
     * raised.  An invalid form records its errors and submits nothing; a
     * valid one submits the form data, asks to close only when `onSubmit`
     * completed, and ends with `isSubmitting` false either way.
     */
    method HandleSubmit(mode: Mode, onSubmitThrows: bool) returns (submitted: Option<UserFormData>, closeCalled: bool)
      requires WellTyped(formData)
      modifies this
      ensures formData == old(formData)
      ensures errors == ExpectedErrors(formData, mode)
      ensures submitted.Some? <==> FormValid(formData, mode)
      ensures submitted.Some? ==> submitted.value == formData
      ensures closeCalled <==> FormValid(formData, mode) && !onSubmitThrows
      ensures !FormValid(formData, mode) ==> isSubmitting == old(isSubmitting)
      ensures FormValid(formData, mode) ==> !isSubmitting
    {
      var newErrors, valid := ValidateForm(formData, mode);
      errors := newErrors;
      if !valid {
        return None, false;
      }
      isSubmitting := true;
      submitted := Some(formData);
      closeCalled := !onSubmitThrows;
      isSubmitting := false;
    }
  }
}
