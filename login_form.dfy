/** The login form (src/components/login-form.tsx): the Turkish text shown
    for an authentication error and when the submit button is enabled. */
module LoginForm {

  const InvalidCredentials := "Ge\U{00E7}ersiz e-posta veya \U{015F}ifre"
  const DefaultError := "Giri\U{015F} yap\U{0131}lamad\U{0131}. L\U{00FC}tfen bilgilerinizi kontrol edin."

  /** The translation record: exact message to Turkish text. */
  const Translations: map<string, string> := map[
    "Invalid login credentials" := InvalidCredentials,
    "Email not confirmed" := "E-posta adresi do\U{011F}rulanmam\U{0131}\U{015F}",
    "User not found" := "Kullan\U{0131}c\U{0131} bulunamad\U{0131}",
    "Invalid email or password" := InvalidCredentials,
    "Too many requests" := "\U{00C7}ok fazla deneme. L\U{00FC}tfen biraz bekleyin",
    "Email rate limit exceeded" := "E-posta g\U{00F6}nderim limiti a\U{015F}\U{0131}ld\U{0131}",
    "Password should be at least 6 characters" := "\U{015E}ifre en az 6 karakter olmal\U{0131}",
    "User already registered" := "Bu e-posta zaten kay\U{0131}tl\U{0131}",
    "Signup requires a valid password" := "Ge\U{00E7}erli bir \U{015F}ifre gerekli",
    "Unable to validate email address: invalid format" := "Ge\U{00E7}ersiz e-posta format\U{0131}"
  ]

  /** `translateAuthError`: the record's text for exactly that message,
      the default text for any other, or for an empty entry. */
  function TranslateAuthError(message: string): (r: string)
    ensures message in Translations && Translations[message] != "" ==> r == Translations[message]
    ensures message !in Translations ==> r == DefaultError
    ensures r != ""
  {
    if message in Translations && Translations[message] != "" then Translations[message] else DefaultError
  }

  /** Every listed message has its own non-empty text, so each one is
      translated to it; the two wrong-credential messages read alike. */
  lemma ListedMessagesTranslate(message: string)
    requires message in Translations
    ensures TranslateAuthError(message) == Translations[message] != DefaultError
    ensures TranslateAuthError("Invalid login credentials") == TranslateAuthError("Invalid email or password") == InvalidCredentials
  {
  }

  /** The lookup is exact: a message differing only in case gets the
      default text. */
  lemma CaseVariantIsDefault()
    ensures TranslateAuthError("invalid login credentials") == DefaultError
    ensures TranslateAuthError("User Not Found") == DefaultError
  {
    assert "invalid login credentials"[0] == 'i';
    assert "User Not Found"[5] == 'N';
  }

  /** The submit button is enabled only when not loading and both fields
      are non-empty. */
  function SubmitEnabled(isLoading: bool, email: string, password: string): (r: bool)
    ensures r <==> !isLoading && |email| > 0 && |password| > 0
  {
    !(isLoading || email == "" || password == "")
  }
}
