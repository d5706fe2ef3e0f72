/** The organisation registration form: live username validation, the mapping of server
    errors to messages and the submit guard. */
module RegisterOrg {
  import opened Wrappers
  import opened Text
  import opened ApiClient
  import OrganisationModels

  const UppercaseMessage := "Korisničko ime ne može sadržati velika slova. Koristite samo mala slova, brojeve i donje crte."
  const CharsetMessage := "Korisničko ime može sadržati samo mala slova, brojeve i donje crte (_)."
  const TooShortMessage := "Korisničko ime mora imati najmanje 3 karaktera."
  const TooLongMessage := "Korisničko ime ne može imati više od 30 karaktera."
  const DuplicateMessage := UsernameMarker + " već postoji. Pokušajte ponovo sa drugim korisničkim imenom."
  const InvalidMessage := "Korisničko ime nije validno. Koristite samo mala slova, brojeve i donje crte (_)."
  const ShortInvalidMessage := "Korisničko ime nije validno."
  const ValidationFallback := "Greška pri validaciji podataka."
  const RegistrationFallback := "Greška pri registraciji. Pokušajte ponovo."
  const UsernameMarker := "Korisničko ime"

  /** `[a-z0-9_]`: unlike the server's pattern, no '-'. */
  predicate IsAllowedChar(c: char) {
    IsLower(c) || IsDigit(c) || c == '_'
  }

  predicate HasUpper(s: string) {
    exists i :: 0 <= i < |s| && IsUpper(s[i])
  }

  predicate AllAllowed(s: string) {
    forall i :: 0 <= i < |s| ==> IsAllowedChar(s[i])
  }

  /** `validateUsername`: "" when acceptable (or empty), else the first failing rule's message. */
  function ValidateUsername(u: string): (msg: string)
    ensures u == "" ==> msg == ""
    ensures u != "" && HasUpper(u) ==> msg == UppercaseMessage
    ensures u != "" && !HasUpper(u) && !AllAllowed(u) ==> msg == CharsetMessage
    ensures u != "" && AllAllowed(u) && |u| < 3 ==> msg == TooShortMessage
    ensures u != "" && AllAllowed(u) && |u| > 30 ==> msg == TooLongMessage
    ensures msg == "" <==> u == "" || (3 <= |u| <= 30 && AllAllowed(u))
  {
    if u == "" then ""
    else if HasUpper(u) then
      assert !AllAllowed(u);
      UppercaseMessage
    else if !AllAllowed(u) then CharsetMessage
    else if |u| < 3 then TooShortMessage
    else if |u| > 30 then TooLongMessage
    else ""
  }

  /** Every non-empty name the form accepts also matches the server's `^[a-z0-9_-]{3,30}$`,
      while a name with '-' that the server would take is refused by the form. */
  lemma AcceptedMatchesServerPattern(u: string)
    ensures u != "" && ValidateUsername(u) == "" ==> OrganisationModels.MatchesUsernamePattern(u)
    ensures OrganisationModels.MatchesUsernamePattern("org-1") && ValidateUsername("org-1") == CharsetMessage
  {
    assert !IsAllowedChar("org-1"[3]);
  }

  predicate MentionsUsername(d: string) {
    Contains(d, "username") || Contains(d, "korisničko ime")
  }

  predicate MentionsTaken(d: string) {
    Contains(d, "already exists") || Contains(d, "već postoji") || Contains(d, "taken")
  }

  predicate MentionsUppercase(d: string) {
    Contains(d, "uppercase") || Contains(d, "velika slova")
  }

  predicate MentionsInvalid(d: string) {
    Contains(d, "invalid") || Contains(d, "nevalidno")
  }

  /** `Array.prototype.find` for the first validation error whose `loc` names `key`. */
  function FindByLoc(items: seq<ValidationItem>, key: string): (r: Option<nat>)
    ensures r.Some? ==>
      (r.value < |items| && key in items[r.value].loc && forall j :: 0 <= j < r.value ==> key !in items[j].loc)
    ensures r.None? ==> forall j :: 0 <= j < |items| ==> key !in items[j].loc
  {
    if items == [] then None
    else if key in items[0].loc then Some(0)
    else match FindByLoc(items[1..], key)
      case None => None
      case Some(k) => Some(k + 1)
  }

  /** The message for a string `detail`. */
  function TextDetailMessage(t: string): (m: string)
    ensures var d := Lower(t);
      && (MentionsUsername(d) && MentionsTaken(d) ==> m == DuplicateMessage)
      && (MentionsUsername(d) && !MentionsTaken(d) && MentionsUppercase(d) ==> m == UppercaseMessage)
      && (MentionsUsername(d) && !MentionsTaken(d) && !MentionsUppercase(d) && MentionsInvalid(d) ==> m == InvalidMessage)
      && (!MentionsUsername(d) || !(MentionsTaken(d) || MentionsUppercase(d) || MentionsInvalid(d)) ==> m == t)
  {
    var d := Lower(t);
    if MentionsUsername(d) && MentionsTaken(d) then DuplicateMessage
    else if MentionsUsername(d) && MentionsUppercase(d) then UppercaseMessage
    else if MentionsUsername(d) && MentionsInvalid(d) then InvalidMessage
    else t
  }

  /** `parseError`: the message shown for a failed registration. `None` stands for the
      `TypeError` raised when the validation error naming the username has no `msg`. */
  function ParseError(e: Thrown): (r: Option<string>)
    ensures e.ApiError? && e.detail.DetailText? ==> r == Some(TextDetailMessage(e.detail.text))
    ensures e.ApiError? && e.detail.DetailList? && FindByLoc(e.detail.items, "username").None? ==>
      r == Some(if |e.detail.items| > 0 && Truthy(e.detail.items[0].msg) then e.detail.items[0].msg.value
                else ValidationFallback)
    ensures r.None? <==> (e.ApiError? && e.detail.DetailList? && FindByLoc(e.detail.items, "username").Some?
      && e.detail.items[FindByLoc(e.detail.items, "username").value].msg.None?)
    ensures (e.ApiError? && e.detail.DetailList? && FindByLoc(e.detail.items, "username").Some?
             && e.detail.items[FindByLoc(e.detail.items, "username").value].msg.Some?) ==>
      var msg := e.detail.items[FindByLoc(e.detail.items, "username").value].msg.value;
      && (MentionsTaken(Lower(msg)) ==> r == Some(DuplicateMessage))
      && (!MentionsTaken(Lower(msg)) && MentionsUppercase(Lower(msg)) ==> r == Some(UppercaseMessage))
      && (!MentionsTaken(Lower(msg)) && !MentionsUppercase(Lower(msg)) ==>
            r == Some(if msg != "" then msg else ShortInvalidMessage))
    ensures e.Rethrown? ==> r == Some(if e.text != "" then e.text else RegistrationFallback)
    ensures e.ApiError? && (e.detail.NoDetail? || e.detail.DetailOther?) ==>
      r == Some(if e.message != "" then e.message else RegistrationFallback)
  {
    match e
    case Rethrown(_, text) => Some(if text != "" then text else RegistrationFallback)
    case ApiError(message, _, detail) =>
      match detail
      case DetailText(t) => Some(TextDetailMessage(t))
      case DetailList(items) =>
        (match FindByLoc(items, "username")
        case Some(k) =>
          (match items[k].msg
           case None => None
           case Some(msg) =>
             var d := Lower(msg);
             if MentionsTaken(d) then Some(DuplicateMessage)
             else if MentionsUppercase(d) then Some(UppercaseMessage)
             else Some(if msg != "" then msg else ShortInvalidMessage))
        case None =>
          Some(if |items| > 0 && Truthy(items[0].msg) then items[0].msg.value else ValidationFallback))
      case _ => Some(if message != "" then message else RegistrationFallback)
  }

  /** The form's state: the entered fields, the two error texts, the loading flag, how many
      times `registerOrg` was called and whether the redirect to the login page is scheduled. */
  datatype FormState = FormState(fields: map<string, string>, usernameError: string, error: string,
                                 loading: bool, registerCalls: nat, redirecting: bool)

  function UsernameOf(fields: map<string, string>): string {
    if "username" in fields then fields["username"] else ""
  }

  /** `handleChange`: store the value; a username is validated as it is typed. */
  function ChangeStep(st: FormState, name: string, value: string): (r: FormState)
    ensures r.fields == st.fields[name := value]
    ensures name == "username" ==>
      (r.usernameError == ValidateUsername(value) && r.error == (if ValidateUsername(value) != "" then "" else st.error))
    ensures name != "username" ==> r.usernameError == st.usernameError && r.error == st.error
    ensures r.loading == st.loading && r.registerCalls == st.registerCalls && r.redirecting == st.redirecting
  {
    var fields := st.fields[name := value];
    if name == "username" then
      var v := ValidateUsername(value);
      st.(fields := fields, usernameError := v, error := if v != "" then "" else st.error)
    else st.(fields := fields)
  }

  /** `handleSubmit`, given what `registerOrg` does (`None`: it succeeds). */
  function SubmitStep(st: FormState, outcome: Option<Thrown>): FormState {
    var v := ValidateUsername(UsernameOf(st.fields));
    if v != "" then st.(usernameError := v, error := v, loading := false)
    else
      var called := st.(error := "", loading := false, registerCalls := st.registerCalls + 1);
      match outcome
      case None => called.(redirecting := true)
      case Some(e) =>
        match ParseError(e)
        case None => called
        case Some(m) =>
          if Contains(m, UsernameMarker) then called.(error := m, usernameError := m)
          else called.(error := m)
  }

  /** The fields as first shown: everything empty, the official type preselected. */
  const InitialFields: map<string, string> :=
    map["username" := "", "name" := "", "email" := "", "password" := "", "description" := "",
        "location" := "", "phone" := "", "website" := "", "org_type" := "official"]

  class RegisterForm {
    var fields: map<string, string>
    var usernameError: string
    var error: string
    var loading: bool
    var registerCalls: nat
    var redirecting: bool

    function Snapshot(): FormState
      reads this
    {
      FormState(fields, usernameError, error, loading, registerCalls, redirecting)
    }

    /** The form as first shown: no errors, no request made, no redirect scheduled. */
    constructor()
      ensures Snapshot() == FormState(InitialFields, "", "", false, 0, false)
    {
      fields := InitialFields;
      usernameError := "";
      error := "";
      loading := false;
      registerCalls := 0;
      redirecting := false;
    }

    method HandleChange(name: string, value: string)
      modifies this
      ensures Snapshot() == ChangeStep(old(Snapshot()), name, value)
    {
      fields := fields[name := value];
      if name == "username" {
        var v := ValidateUsername(value);
        usernameError := v;
        if v != "" {
          error := "";
        }
      }
    }

    method HandleSubmit(outcome: Option<Thrown>)
      modifies this
      ensures Snapshot() == SubmitStep(old(Snapshot()), outcome)
    {
      ghost var before := Snapshot();
      error := "";
      loading := true;
      var v := ValidateUsername(UsernameOf(fields));
      if v != "" {
        usernameError := v;
        error := v;
        loading := false;
        assert Snapshot() == before.(usernameError := v, error := v, loading := false);
        return;
      }
      registerCalls := registerCalls + 1;
      ghost var called := before.(error := "", loading := false, registerCalls := before.registerCalls + 1);
      assert Snapshot().(loading := false) == called;
      match outcome {
        case None =>
          redirecting := true;
        case Some(e) =>
          var m := ParseError(e);
          if m.Some? {
            error := m.value;
            if Contains(m.value, UsernameMarker) {
              usernameError := m.value;
            }
          }
      }
      loading := false;
    }
  }
}

module RegisterOrgProperties {
  import opened Wrappers
  import opened ApiClient
  import opened RegisterOrg

  /** A username the form refuses blocks submission: no request is made, whatever the server
      would have answered, and the refusal is shown in both error slots. */
  lemma RejectedUsernameBlocksSubmit(st: FormState, o1: Option<Thrown>, o2: Option<Thrown>)
    requires ValidateUsername(UsernameOf(st.fields)) != ""
    ensures SubmitStep(st, o1) == SubmitStep(st, o2)
    ensures SubmitStep(st, o1).registerCalls == st.registerCalls
    ensures SubmitStep(st, o1).error == ValidateUsername(UsernameOf(st.fields)) == SubmitStep(st, o1).usernameError
    ensures !SubmitStep(st, o1).redirecting == !st.redirecting
  {
  }

  /** An acceptable username leads to exactly one registration request, the redirect only on
      success, and the loading flag cleared either way. */
  lemma AcceptedUsernameSubmits(st: FormState, o: Option<Thrown>)
    requires ValidateUsername(UsernameOf(st.fields)) == ""
    ensures SubmitStep(st, o).registerCalls == st.registerCalls + 1
    ensures !SubmitStep(st, o).loading
    ensures o.None? ==> SubmitStep(st, o).redirecting && SubmitStep(st, o).error == ""
    ensures o.Some? ==> SubmitStep(st, o).redirecting == st.redirecting
    ensures o.Some? && ParseError(o.value).Some? ==>
      var m := ParseError(o.value).value;
      SubmitStep(st, o).error == m
      && SubmitStep(st, o).usernameError == (if Text.Contains(m, UsernameMarker) then m else st.usernameError)
    ensures o.Some? && ParseError(o.value).None? ==>
      SubmitStep(st, o).error == "" && SubmitStep(st, o).usernameError == st.usernameError
  {
  }

  /** A duplicate-name answer from the server ends in the fixed duplicate message, shown in
      both error slots. */
  lemma DuplicateDetailMessage(st: FormState, status: int)
    requires ValidateUsername(UsernameOf(st.fields)) == ""
    ensures var e := ApiError("x", status, DetailText("username already exists"));
      SubmitStep(st, Some(e)).error == DuplicateMessage == SubmitStep(st, Some(e)).usernameError
  {
    DuplicateTextMessage();
    assert Text.StartsWith(DuplicateMessage, UsernameMarker);
  }

  /** The keyword mapping of the server's duplicate-name detail. */
  lemma DuplicateTextMessage()
    ensures TextDetailMessage("username already exists") == DuplicateMessage
  {
    var t := "username already exists";
    LowerNoop(t);
    assert Text.StartsWith(t, "username");
    assert Text.StartsWith(t[9..], "already exists");
    ContainsSuffix(t, 9, "already exists");
    assert MentionsUsername(Text.Lower(t)) && MentionsTaken(Text.Lower(t));
  }

  lemma LowerNoop(s: string)
    requires forall i :: 0 <= i < |s| ==> !Text.IsUpper(s[i])
    ensures Text.Lower(s) == s
  {
  }

  lemma {:induction false} ContainsSuffix(s: string, k: nat, sub: string)
    requires k <= |s| && Text.Contains(s[k..], sub)
    ensures Text.Contains(s, sub)
  {
    if k > 0 {
      assert s[1..][k - 1..] == s[k..];
      ContainsSuffix(s[1..], k - 1, sub);
    }
  }
}
