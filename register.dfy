/**
 * The sign-up screen (src/screens/auth/RegisterScreen.js): a form object edited field by
 * field, two client-side checks, and the message shown when registration fails.
 */
module Register {
  import opened Outcomes
  import opened Models
  import opened Serializers
  import AuthContext

  const MissingFields: string := "Te rugăm să completezi toate câmpurile obligatorii"
  const PasswordsDiffer: string := "Parolele nu se potrivesc"
  const Registered: string := "Contul a fost creat cu succes!"
  const Fallback: string := "Nu am putut crea contul. Încearcă din nou."

  /** The form state the screen starts from. */
  function InitialForm(): (f: Attrs)
    ensures f.Keys == {"username", "email", "password", "password2", "first_name", "last_name", "phone", "is_driver"}
    ensures forall k :: k in f && k != "is_driver" ==> f[k] == Text("")
    ensures f["is_driver"] == Flag(false)
  {
    map["username" := Text(""), "email" := Text(""), "password" := Text(""), "password2" := Text(""),
        "first_name" := Text(""), "last_name" := Text(""), "phone" := Text(""), "is_driver" := Flag(false)]
  }

  /** handleChange: a copy of the form with one field replaced. */
  function Changed(form: Attrs, field: string, value: FieldValue): (f: Attrs)
    ensures f.Keys == form.Keys + {field}
    ensures f[field] == value
    ensures forall k :: k in form && k != field ==> f[k] == form[k]
  {
    form[field := value]
  }

  /** Changing a field twice keeps only the second value; changing two different fields
      commutes. */
  lemma ChangesCompose(form: Attrs, a: string, b: string, x: FieldValue, y: FieldValue)
    ensures Changed(Changed(form, a, x), a, y) == Changed(form, a, y)
    ensures a != b ==> Changed(Changed(form, a, x), b, y) == Changed(Changed(form, b, y), a, x)
  {
  }

  /** JavaScript truthiness of a form field: present, and not the empty string or false. */
  predicate Filled(form: Attrs, key: string)
  {
    key in form && match form[key]
      case Text(t) => t != ""
      case Flag(b) => b
  }

  /** The first check of handleRegister. */
  predicate RequiredFilled(form: Attrs)
  {
    Filled(form, "username") && Filled(form, "email") && Filled(form, "password") && Filled(form, "password2")
  }

  /** A form that passes both client checks, with a password that is not blank once trimmed,
      passes the server's password checks. */
  lemma ClientCheckImpliesServer(form: Attrs)
    requires RequiredFilled(form) && form["password"] == form["password2"]
    requires form["password"].Text? && Trim(form["password"].text) != ""
    ensures RegistrationPasswords(form).Some? && RegistrationPasswords(form).value.Passed?
  {
  }

  /** A form with the required fields filled and the given passwords. */
  function PasswordForm(password: string, password2: string): Attrs
  {
    map["username" := Text("ana"), "email" := Text("ana@example.com"),
        "password" := Text(password), "password2" := Text(password2)]
  }

  /** The converse fails: a password typed with a trailing space (say "abc " against "abc")
      is refused by the screen and accepted by the server, which compares the trimmed texts. */
  lemma SpacedPasswordsRefusedOnlyByScreen(p: string)
    requires p != "" && Trim(p) == p
    ensures RequiredFilled(PasswordForm(p + " ", p))
    ensures PasswordForm(p + " ", p)["password"] != PasswordForm(p + " ", p)["password2"]
    ensures RegistrationPasswords(PasswordForm(p + " ", p)).Some?
    ensures RegistrationPasswords(PasswordForm(p + " ", p)).value.Passed?
  {
    TrailingSpaceIgnored(p);
    var form := PasswordForm(p + " ", p);
    assert form["password"] == Text(p + " ") && form["password2"] == Text(p);
    assert |p + " "| != |p|;
    TrimmedEqualPasses(form, p + " ", p);
  }

  /** The server's password check depends only on the trimmed texts. */
  lemma TrimmedEqualPasses(form: Attrs, password: string, password2: string)
    requires "password" in form && form["password"] == Text(password)
    requires "password2" in form && form["password2"] == Text(password2)
    requires Trim(password) == Trim(password2) != ""
    ensures RegistrationPasswords(form).Some? && RegistrationPasswords(form).value.Passed?
  {
    assert PasswordFieldOk(form, "password") && PasswordFieldOk(form, "password2");
  }

  /** Equal passwords made only of whitespace (say "   ") pass both checks of the screen and are
      refused by the server before its password comparison runs. */
  lemma BlankPasswordsRefusedOnlyByServer(w: string)
    requires w != "" && Trim(w) == ""
    ensures RequiredFilled(PasswordForm(w, w))
    ensures PasswordForm(w, w)["password"] == PasswordForm(w, w)["password2"]
    ensures RegistrationPasswords(PasswordForm(w, w)).None?
  {
    assert PasswordForm(w, w)["password"] == Text(w);
  }

  /** A field of a backend error body: DRF sends a list of messages per field, other bodies
      a single string. */
  datatype ErrorValue = One(message: string) | Many(messages: seq<string>)

  /** The messages one field of the error body carries. */
  function Messages(v: ErrorValue): seq<string>
  {
    match v
    case One(m) => [m]
    case Many(ms) => ms
  }

  /** Object.values(error).flat(): the messages of every field, field after field. */
  function Flatten(values: seq<ErrorValue>): (lines: seq<string>)
    ensures forall l :: l in lines <==> exists i :: 0 <= i < |values| && l in Messages(values[i])
    ensures |values| == 1 ==> lines == Messages(values[0])
  {
    if values == [] then []
    else
      assert forall i :: 1 <= i < |values| ==> values[1..][i - 1] == values[i];
      Messages(values[0]) + Flatten(values[1..])
  }

  /** Flattening keeps the order of the fields and every message of each, duplicates
      included; with the one-field case of Flatten this determines it. */
  lemma {:induction false} FlattenAppend(a: seq<ErrorValue>, b: seq<ErrorValue>)
    ensures Flatten(a + b) == Flatten(a) + Flatten(b)
  {
    if a == [] {
      assert a + b == b;
    } else {
      assert (a + b)[1..] == a[1..] + b;
      FlattenAppend(a[1..], b);
    }
  }

  /** .join('\n'). The text is empty exactly when there is nothing to join, or one empty line;
      any two lines give at least the line break between them. */
  function JoinLines(lines: seq<string>): (text: string)
    ensures text == "" <==> lines == [] || lines == [""]
    ensures |lines| >= 2 ==> |text| >= |lines| - 1
  {
    if lines == [] then ""
    else if |lines| == 1 then lines[0]
    else lines[0] + "\n" + JoinLines(lines[1..])
  }

  /** .split('\n'): the pieces of a text between its line breaks. */
  function SplitLines(text: string): (pieces: seq<string>)
    ensures |pieces| >= 1
  {
    if text == [] then [""]
    else
      var rest := SplitLines(text[1..]);
      if text[0] == '\n' then [""] + rest
      else [[text[0]] + rest[0]] + rest[1..]
  }

  lemma {:induction false} SplitNoBreak(a: string, b: string)
    requires '\n' !in a
    ensures SplitLines(a + b) == [a + SplitLines(b)[0]] + SplitLines(b)[1..]
  {
    var tail := SplitLines(b);
    if a == [] {
      assert a + b == b;
      assert a + tail[0] == tail[0];
      assert tail == [tail[0]] + tail[1..];
    } else {
      assert (a + b)[0] == a[0] && a[0] != '\n';
      assert (a + b)[1..] == a[1..] + b;
      SplitNoBreak(a[1..], b);
      var rest := SplitLines(a[1..] + b);
      assert rest[0] == a[1..] + tail[0] && rest[1..] == tail[1..];
      assert [a[0]] + (a[1..] + tail[0]) == a + tail[0];
    }
  }

  /** Each message is shown on a line of its own: cutting the joined text at its line breaks
      gives back the messages, when none of them holds a line break. */
  lemma {:induction false} SplitJoin(lines: seq<string>)
    requires lines != []
    requires forall i :: 0 <= i < |lines| ==> '\n' !in lines[i]
    ensures SplitLines(JoinLines(lines)) == lines
  {
    if |lines| == 1 {
      SplitNoBreak(lines[0], "");
      assert lines[0] + "" == lines[0];
    } else {
      SplitJoin(lines[1..]);
      var rest := JoinLines(lines[1..]);
      assert JoinLines(lines) == lines[0] + ("\n" + rest);
      var broken := "\n" + rest;
      assert broken[0] == '\n' && broken[1..] == rest;
      assert SplitLines(broken) == [""] + lines[1..];
      assert '\n' !in lines[0];
      SplitNoBreak(lines[0], broken);
      assert lines[0] + "" == lines[0];
      assert lines == [lines[0]] + lines[1..];
    }
  }

  /** The alert text after a failed registration: every message of the error body, one per
      line, or the fixed fallback when there is nothing to show. */
  function ErrorMessage(values: seq<ErrorValue>): (m: string)
    ensures m != ""
    ensures Flatten(values) == [] || Flatten(values) == [""] ==> m == Fallback
    ensures Flatten(values) != [] && Flatten(values) != [""] ==> m == JoinLines(Flatten(values))
  {
    var joined := JoinLines(Flatten(values));
    if joined == "" then Fallback else joined
  }

  /** The server's refusal for differing passwords is shown word for word, and an empty error
      body gets the fixed fallback. */
  lemma ServerMessagesShown()
    ensures ErrorMessage([Many([PasswordMismatch])]) == PasswordMismatch
    ensures ErrorMessage([]) == Fallback
  {
    assert Flatten([Many([PasswordMismatch])]) == [PasswordMismatch] + Flatten([]);
  }

  /** What the register call from the session store comes back with. */
  datatype RegisterResult = Succeeded | Threw(error: seq<ErrorValue>)

  /** An alert: title and message. */
  datatype Notice = Notice(title: string, message: string)

  class RegisterScreen {
    var formData: Attrs
    var loading: bool

    constructor ()
      ensures formData == InitialForm() && !loading
    {
      formData := InitialForm();
      loading := false;
    }

    method HandleChange(field: string, value: FieldValue)
      modifies this
      ensures formData == Changed(old(formData), field, value) && loading == old(loading)
    {
      formData := formData[field := value];
    }

    /** handleRegister: the missing-field check first, then the password check, and only then
        the register call, with the whole form. Loading is off again at the end. */
    method HandleRegister(result: RegisterResult) returns (called: Option<Attrs>, notice: Notice)
      modifies this
      ensures formData == old(formData)
      ensures called.None? ==> loading == old(loading)
      ensures !RequiredFilled(formData) ==> called.None? && notice == Notice("Eroare", MissingFields)
      ensures RequiredFilled(formData) && formData["password"] != formData["password2"] ==>
                called.None? && notice == Notice("Eroare", PasswordsDiffer)
      ensures called.Some? <==> RequiredFilled(formData) && formData["password"] == formData["password2"]
      ensures called.Some? ==> called.value == formData && !loading
      ensures called.Some? && result.Succeeded? ==> notice == Notice("Succes", Registered)
      ensures called.Some? && result.Threw? ==> notice == Notice("Eroare la înregistrare", ErrorMessage(result.error))
    {
      if !RequiredFilled(formData) {
        return None, Notice("Eroare", MissingFields);
      }
      if formData["password"] != formData["password2"] {
        return None, Notice("Eroare", PasswordsDiffer);
      }
      loading := true;
      called := Some(formData);
      match result {
        case Succeeded =>
          notice := Notice("Succes", Registered);
        case Threw(error) =>
          notice := Notice("Eroare la înregistrare", ErrorMessage(error));
      }
      loading := false;
    }
  }

  /** As wired, the register call is the session store's simulated one, which always succeeds:
      every form that passes both checks is reported as registered. */
  method RegisterThroughSession(screen: RegisterScreen, session: AuthContext.AuthProvider) returns (notice: Notice)
    modifies screen, session
    ensures RequiredFilled(old(screen.formData)) && old(screen.formData)["password"] == old(screen.formData)["password2"] ==>
              notice == Notice("Succes", Registered)
  {
    var ok := session.Register(screen.formData);
    var called;
    called, notice := screen.HandleRegister(if ok then Succeeded else Threw([]));
  }
}
