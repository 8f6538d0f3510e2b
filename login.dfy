/** The sign-in page: the remember-me entries it keeps in the browser's local storage (a map from
    key to text) and the form state it updates around a sign-in attempt. */
module LoginPage {
  import opened Wrappers

  type Storage = map<string, string>

  const RememberKey := "krm.remember"
  const RememberEmailKey := "krm.remember.email"
  const RememberPasswordKey := "krm.remember.password"
  const RememberedFlag := "true"
  const DefaultError := "Login gagal. Periksa kembali email dan password Anda."

  /** `localStorage.getItem(key) || ''`. */
  function StoredText(storage: Storage, key: string): string {
    if key in storage then storage[key] else ""
  }

  /** What the mount effect prefills: the stored email and password, only when the flag is `'true'`. */
  function Prefill(storage: Storage): (r: Option<(string, string)>)
    ensures r.Some? <==> RememberKey in storage && storage[RememberKey] == RememberedFlag
    ensures r.Some? ==> r.value.0 == StoredText(storage, RememberEmailKey) && r.value.1 == StoredText(storage, RememberPasswordKey)
  {
    if RememberKey in storage && storage[RememberKey] == RememberedFlag then
      Some((StoredText(storage, RememberEmailKey), StoredText(storage, RememberPasswordKey)))
    else None
  }

  /** The storage after a successful sign-in with remember-me on. */
  function Remember(storage: Storage, email: string, password: string): (s: Storage)
    ensures s.Keys == storage.Keys + {RememberKey, RememberEmailKey, RememberPasswordKey}
    ensures forall k :: k in storage && k !in {RememberKey, RememberEmailKey, RememberPasswordKey} ==> s[k] == storage[k]
  {
    storage[RememberKey := RememberedFlag][RememberEmailKey := email][RememberPasswordKey := password]
  }

  /** The storage after a successful sign-in with remember-me off. */
  function Forget(storage: Storage): (s: Storage)
    ensures s.Keys == storage.Keys - {RememberKey, RememberEmailKey, RememberPasswordKey}
    ensures forall k :: k in s ==> s[k] == storage[k]
  {
    storage - {RememberKey, RememberEmailKey, RememberPasswordKey}
  }

  /** What a remembered sign-in stores, the next visit prefills. */
  lemma RememberedIsPrefilled(storage: Storage, email: string, password: string)
    ensures Prefill(Remember(storage, email, password)) == Some((email, password))
  {
  }

  /** After a forgotten sign-in nothing is prefilled, and forgetting twice is forgetting once. */
  lemma ForgottenIsNotPrefilled(storage: Storage)
    ensures Prefill(Forget(storage)).None?
    ensures Forget(Forget(storage)) == Forget(storage)
  {
  }

  /** `err.message || 'Login gagal. ...'`. */
  function ErrorText(message: string): (e: string)
    ensures message != "" ==> e == message
    ensures message == "" ==> e == DefaultError
    ensures e != ""
  {
    if message != "" then message else DefaultError
  }

  class Login {
    var storage: Storage
    var email: string
    var password: string
    var rememberMe: bool
    var error: string
    var loading: bool

    /** The initial state: an empty form, remember-me off, no error, not loading. */
    constructor(storage: Storage)
      ensures this.storage == storage && email == "" && password == "" && !rememberMe && error == "" && !loading
    {
      this.storage := storage;
      email := "";
      password := "";
      rememberMe := false;
      error := "";
      loading := false;
    }

    /** The mount effect: the form is prefilled from storage when the flag says so. */
    method Mount()
      modifies this
      ensures var p := Prefill(old(storage));
        && (p.Some? ==> rememberMe && email == p.value.0 && password == p.value.1)
        && (p.None? ==> rememberMe == old(rememberMe) && email == old(email) && password == old(password))
      ensures storage == old(storage) && error == old(error) && loading == old(loading)
    {
      var p := Prefill(storage);
      if p.Some? {
        rememberMe := true;
        email := p.value.0;
        password := p.value.1;
      }
    }

    /** The start of `handleSubmit`: the error is cleared and the form is busy. */
    method BeginSubmit()
      modifies this
      ensures error == "" && loading
      ensures storage == old(storage) && email == old(email) && password == old(password) && rememberMe == old(rememberMe)
    {
      error := "";
      loading := true;
    }

    /** The end of `handleSubmit`; `failure` is the message of the error `signIn` threw, `None` when it
        succeeded. Success updates the remember-me entries; failure leaves storage alone and shows the
        message. Either way the form is no longer busy. */
    method FinishSubmit(failure: Option<string>)
      modifies this
      ensures failure.None? && rememberMe ==> storage == Remember(old(storage), email, password)
      ensures failure.None? && !rememberMe ==> storage == Forget(old(storage))
      ensures failure.None? ==> error == old(error)
      ensures failure.Some? ==> storage == old(storage) && error == ErrorText(failure.value)
      ensures !loading
      ensures email == old(email) && password == old(password) && rememberMe == old(rememberMe)
    {
      if failure.None? {
        if rememberMe {
          storage := Remember(storage, email, password);
        } else {
          storage := Forget(storage);
        }
      } else {
        error := ErrorText(failure.value);
      }
      loading := false;
    }

    /** A whole attempt: a successful one ends with the error cleared. */
    method Submit(failure: Option<string>)
      modifies this
      ensures failure.None? ==> error == "" && storage == (if rememberMe then Remember(old(storage), email, password) else Forget(old(storage)))
      ensures failure.Some? ==> storage == old(storage) && error == ErrorText(failure.value)
      ensures !loading
      ensures email == old(email) && password == old(password) && rememberMe == old(rememberMe)
    {
      BeginSubmit();
      FinishSubmit(failure);
    }
  }
}
