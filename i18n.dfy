/** The strings the views display. The translation table itself is not part of
    this model, so its entries stay abstract: a `Translated(key)` text stands for
    the table's entry under that key. Entries under different keys are different
    strings (they are different constructors) and none of them is empty. */
module I18n {

  /** The keys of the translation table that the modelled logic uses. */
  datatype Key =
    | PaymentNotFound
    | InternalServerError
    | SomethingWentWrong
    | EmptyCustomer
    | EmptyCurrency

  /** A displayed string: literal text, or an entry of the translation table. */
  datatype Text = Str(s: string) | Translated(key: Key)

  /** JavaScript's falsiness for strings: only the empty string is falsy.
      Translation entries are non-empty, so they are never blank. */
  predicate IsBlank(t: Text)
  {
    t == Str("")
  }

  /** `s || I18N.<fallback>`: the string itself when it is non-empty, the
      translation entry otherwise. */
  function OrElse(s: string, fallback: Key): (t: Text)
    ensures !IsBlank(t)
    ensures t == Str(s) <==> s != ""
    ensures t == Translated(fallback) <==> s == ""
  {
    if s != "" then Str(s) else Translated(fallback)
  }
}
