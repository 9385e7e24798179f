/** The sign-in form (src/components/auth/LoginForm.tsx). */
module LoginForm {
  import opened Wrappers
  import opened Text
  import opened Records
  import opened AuthStore
  import opened Router

  const BlankIdMessage: string := "Please enter your ABHA ID"

  /** `err instanceof Error ? err.message : 'Login failed'`. */
  function ErrorText(t: Thrown): (r: string)
    ensures t.ErrorValue? ==> r == t.message
    ensures t.OtherValue? ==> r == "Login failed"
  {
    match t
    case ErrorValue(m) => m
    case OtherValue => "Login failed"
  }

  /** `abhaId.trim()` is empty. */
  predicate IsBlank(s: string) {
    Trim(s) == ""
  }

  /** One of the demo accounts listed under the form. */
  datatype DemoCredential = DemoCredential(role: string, abhaId: string, name: string)

  const DemoCredentials: seq<DemoCredential> := [
    DemoCredential("Doctor", "ABHA123456789012", "Dr. Rajesh Kumar"),
    DemoCredential("Admin", "ABHA223456789012", "Ravi Krishnan"),
    DemoCredential("Government", "ABHA323456789012", "Dr. Suresh Chand")
  ]

  /** Each demo account signs in: its id is a table key whose user has the
      listed name and, lower-cased, the listed role. */
  lemma DemoCredentialsSignIn()
    ensures forall i :: 0 <= i < |DemoCredentials| ==>
      && DemoCredentials[i].abhaId in MockUsers
      && MockUsers[DemoCredentials[i].abhaId].name == DemoCredentials[i].name
      && MockUsers[DemoCredentials[i].abhaId].role == Lower(DemoCredentials[i].role)
  {
    assert Lower("Doctor") == "doctor";
    assert Lower("Admin") == "admin";
    assert Lower("Government") == "government";
  }

  class Form {
    var abhaId: string
    var error: string

    constructor ()
      ensures abhaId == "" && error == ""
    {
      abhaId := "";
      error := "";
    }

    method SetAbhaId(v: string)
      modifies this`abhaId
      ensures abhaId == v
    {
      abhaId := v;
    }

    /** `handleSubmit`: clear the error; refuse a blank id without calling
        `login`; otherwise sign in with the id as typed, untrimmed, and go to
        the dashboard only once that succeeded, or show the thrown message. */
    method HandleSubmit(store: Store, router: Router)
      requires store.Valid()
      modifies this`error, store, router
      ensures store.Valid()
      ensures IsBlank(abhaId) ==>
        && error == BlankIdMessage
        && store.user == old(store.user) && store.isAuthenticated == old(store.isAuthenticated)
        && router.history == old(router.history) && router.pathname == old(router.pathname)
      ensures !IsBlank(abhaId) && abhaId in MockUsers ==>
        && error == ""
        && store.user == Some(MockUsers[abhaId]) && store.isAuthenticated
        && router.pathname == "/dashboard" && router.history == old(router.history) + ["/dashboard"]
      ensures !IsBlank(abhaId) && abhaId !in MockUsers ==>
        && error == InvalidUserMessage
        && store.user == old(store.user) && store.isAuthenticated == old(store.isAuthenticated)
        && router.history == old(router.history) && router.pathname == old(router.pathname)
    {
      error := "";
      if IsBlank(abhaId) {
        error := BlankIdMessage;
        return;
      }
      var r := store.Login(abhaId);
      if r.Success? {
        router.Navigate("/dashboard");
      } else {
        error := ErrorText(r.error);
      }
    }
  }

  /** A whitespace-only id is refused. */
  lemma BlankIds()
    ensures IsBlank("") && IsBlank(" \t ")
  {
    TrimEmptyIffBlank(" \t ");
  }

  /** A string with a character other than white space is not blank. */
  lemma NotBlank(s: string, i: nat)
    requires i < |s| && !IsJsSpace(s[i])
    ensures !IsBlank(s)
  {
    TrimEmptyIffBlank(s);
  }

  /** Keys of the table start with a letter. */
  lemma KeysStartWithLetter()
    ensures forall k :: k in MockUsers ==> |k| > 0 && k[0] == 'A'
  {
  }

  lemma PaddedIsNotKey(key: string)
    requires key in MockUsers
    ensures " " + key !in MockUsers
  {
    KeysStartWithLetter();
    var padded := " " + key;
    assert padded[0] == ' ';
  }

  lemma PaddedIsNotBlank(key: string)
    requires |key| > 0 && key[0] == 'A'
    ensures !IsBlank(" " + key)
  {
    var padded := " " + key;
    assert padded[1] == key[0];
    NotBlank(padded, 1);
  }

  /** An account's id typed with a leading space is not refused, but it is
      looked up as typed and finds no account. */
  lemma PaddedIdIsLookedUpAsTyped(key: string)
    requires key in MockUsers
    ensures !IsBlank(" " + key) && " " + key !in MockUsers
  {
    KeysStartWithLetter();
    PaddedIsNotBlank(key);
    PaddedIsNotKey(key);
  }
}
