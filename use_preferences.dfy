/**
 * The preferences hook: the user document it writes to, the overlay of a
 * partial update on the stored preferences, the outcome of
 * `updatePreferences`, and the effect that puts the theme class on the
 * document root.
 */
module UsePreferences {
  import opened Seqs

  datatype Currency = USD | EUR | GBP | JPY | INR

  datatype Theme = Light | Dark | Auto

  /**
   * The user's preferences.  Every field is optional, so the same type
   * serves as the `Partial<UserPreferences>` an update carries.
   */
  datatype Preferences = Preferences(currency: Option<Currency>, theme: Option<Theme>)

  const NoPreferences := Preferences(None, None)

  // ---------------------------------------------------------------------
  // The user document and the update
  // ---------------------------------------------------------------------

  /** `userDocRef`: the path `users/<uid>`, or none without a signed-in user or a store. */
  function UserDocPath(uid: Option<string>, hasFirestore: bool): (r: Option<string>)
    ensures r.Some? <==> uid.Some? && hasFirestore
    ensures r.Some? ==> r.value == "users/" + uid.value
  {
    if uid.None? || !hasFirestore then None else Some("users/" + uid.value)
  }

  /**
   * `{ ...(preferences || {}), ...update }`: each field the update sets
   * takes the update's value, every other field keeps the stored one, and
   * with nothing stored only the update's fields are present.
   */
  function Merge(stored: Option<Preferences>, update: Preferences): (r: Preferences)
    ensures update.currency.Some? ==> r.currency == update.currency
    ensures update.theme.Some? ==> r.theme == update.theme
    ensures update.currency.None? ==> r.currency == stored.GetOr(NoPreferences).currency
    ensures update.theme.None? ==> r.theme == stored.GetOr(NoPreferences).theme
  {
    var base := stored.GetOr(NoPreferences);
    Preferences(
      if update.currency.Some? then update.currency else base.currency,
      if update.theme.Some? then update.theme else base.theme)
  }

  /** With no stored preferences the result is the update itself. */
  lemma MergeWithNothingStored(update: Preferences)
    ensures Merge(None, update) == update
  {
  }

  /** An empty update leaves the stored preferences as they are. */
  lemma MergeEmptyUpdate(stored: Preferences)
    ensures Merge(Some(stored), NoPreferences) == stored
  {
  }

  /** Laying the same update on twice gives what laying it on once gives. */
  lemma MergeIdempotent(stored: Option<Preferences>, update: Preferences)
    ensures Merge(Some(Merge(stored, update)), update) == Merge(stored, update)
  {
  }

  /** Two updates in a row are one update: the first overlaid by the second. */
  lemma MergeSequential(stored: Option<Preferences>, first: Preferences, second: Preferences)
    ensures Merge(Some(Merge(stored, first)), second) == Merge(stored, Merge(Some(first), second))
  {
  }

  datatype Toast = Toast(destructive: bool, title: string, description: string)

  const UpdatedToast := Toast(false, "Preferences Updated", "Your new settings have been saved.")

  /** The failure toast: the error's message, or a fixed text when the message is empty. */
  function FailedToast(message: string): (t: Toast)
    ensures t.destructive && t.title == "Update Failed"
    ensures message != "" ==> t.description == message
    ensures message == "" ==> t.description == "Could not save your preferences."
  {
    Toast(true, "Update Failed", if message != "" then message else "Could not save your preferences.")
  }

  /** What a call to `updatePreferences` did: whether it wrote, what is stored afterwards, and the toast shown. */
  datatype UpdateOutcome = UpdateOutcome(attempted: bool, stored: Option<Preferences>, toast: Option<Toast>)

  /**
   * `updatePreferences(update)`.  Without a document path it returns at
   * once: nothing written, nothing shown.  Otherwise it writes the overlay
   * of the update on the stored preferences; the store's answer is the
   * parameter `writeError` (`None` when the write succeeds).  A successful
   * write stores the overlay and shows the success toast; a failed one
   * leaves the store as it was and shows the failure toast.
   */
  function UpdatePreferences(docPath: Option<string>, stored: Option<Preferences>, update: Preferences,
                             writeError: Option<string>): (r: UpdateOutcome)
    ensures docPath.None? ==> !r.attempted && r.stored == stored && r.toast.None?
    ensures docPath.Some? ==> r.attempted && r.toast.Some?
    ensures docPath.Some? && writeError.None? ==>
      r.stored == Some(Merge(stored, update)) && r.toast == Some(UpdatedToast)
    ensures docPath.Some? && writeError.Some? ==>
      r.stored == stored && r.toast == Some(FailedToast(writeError.value))
  {
    if docPath.None? then UpdateOutcome(false, stored, None)
    else if writeError.None? then UpdateOutcome(true, Some(Merge(stored, update)), Some(UpdatedToast))
    else UpdateOutcome(true, stored, Some(FailedToast(writeError.value)))
  }

  /** Saving the same update twice, both writes succeeding, stores what saving it once stores. */
  lemma UpdateTwice(docPath: Option<string>, stored: Option<Preferences>, update: Preferences)
    ensures var once := UpdatePreferences(docPath, stored, update, None);
      UpdatePreferences(docPath, once.stored, update, None).stored == once.stored
  {
    if docPath.Some? {
      MergeIdempotent(stored, update);
    }
  }

  // ---------------------------------------------------------------------
  // The theme class on the document root
  // ---------------------------------------------------------------------

  /** The class a theme puts on the root; `Auto` follows the system's colour scheme. */
  function ThemeClass(theme: Theme, systemDark: bool): (r: string)
    ensures r == "light" || r == "dark"
    ensures theme == Light ==> r == "light"
    ensures theme == Dark ==> r == "dark"
    ensures theme == Auto ==> (r == "dark" <==> systemDark)
  {
    match theme
    case Light => "light"
    case Dark => "dark"
    case Auto => if systemDark then "dark" else "light"
  }

  /** The tokens of `tokens` that are not in `drop`, in order. */
  function Without(tokens: seq<string>, drop: set<string>): (r: seq<string>)
    ensures forall t :: t in r <==> t in tokens && t !in drop
    ensures IsSubsequence(r, tokens)
    ensures NoDuplicates(tokens) ==> NoDuplicates(r)
  {
    var keep := (t: string) => t !in drop;
    FilterMembers(tokens, keep);
    FilterIsSubsequence(tokens, keep);
    FilterNoDuplicates(tokens, keep);
    Filter(tokens, keep)
  }

  /** The class list the effect leaves: the two theme classes removed, then the chosen one added. */
  function ThemedTokens(tokens: seq<string>, theme: Theme, systemDark: bool): seq<string> {
    Without(tokens, {"light", "dark"}) + [ThemeClass(theme, systemDark)]
  }

  /**
   * After the effect the list holds exactly one of `light` and `dark` --
   * the theme's class, once -- every other class is present exactly when
   * it was before, in the same order, and no class occurs twice.
   */
  lemma ThemedTokensShape(tokens: seq<string>, theme: Theme, systemDark: bool)
    requires NoDuplicates(tokens)
    ensures var r := ThemedTokens(tokens, theme, systemDark);
      && NoDuplicates(r)
      && r[|r| - 1] == ThemeClass(theme, systemDark)
      && ("light" in r <==> "dark" !in r)
      && ThemeClass(theme, systemDark) in r
      && (forall t :: t != "light" && t != "dark" ==> (t in r <==> t in tokens))
      && IsSubsequence(r[..|r| - 1], tokens)
  {
    var rest := Without(tokens, {"light", "dark"});
    var r := ThemedTokens(tokens, theme, systemDark);
    var c := ThemeClass(theme, systemDark);
    assert r[..|r| - 1] == rest;
    forall i, j | 0 <= i < j < |r| ensures r[i] != r[j] {
      if j == |r| - 1 {
        assert r[i] == rest[i] && rest[i] in rest;
      } else {
        assert r[i] == rest[i] && r[j] == rest[j];
      }
    }
  }

  /** `document.documentElement.classList`: an ordered set of class names. */
  class ClassList {
    var tokens: seq<string>

    ghost predicate Valid()
      reads this
    {
      NoDuplicates(tokens)
    }

    constructor (initial: seq<string>)
      requires NoDuplicates(initial)
      ensures Valid() && tokens == initial
    {
      tokens := initial;
    }

    /** `remove(a, b)`: both names are gone, the rest keep their order. */
    method Remove(a: string, b: string)
      requires Valid()
      modifies this
      ensures Valid()
      ensures tokens == Without(old(tokens), {a, b})
    {
      tokens := Without(tokens, {a, b});
    }

    /** `add(name)`: appended when absent, nothing changes when present. */
    method Add(name: string)
      requires Valid()
      modifies this
      ensures Valid()
      ensures tokens == if name in old(tokens) then old(tokens) else old(tokens) + [name]
    {
      if name !in tokens {
        tokens := tokens + [name];
        assert forall i :: 0 <= i < |tokens| - 1 ==> tokens[i] in old(tokens);
      }
    }
  }

  /**
   * The theme effect: when the preferences carry a theme, remove `light`
   * and `dark` from the root's classes and add the theme's class (the
   * system's scheme for `auto`); otherwise leave the classes alone.
   */
  method ApplyTheme(root: ClassList, preferences: Option<Preferences>, systemDark: bool)
    requires root.Valid()
    modifies root
    ensures root.Valid()
    ensures preferences.None? || preferences.value.theme.None? ==> root.tokens == old(root.tokens)
    ensures preferences.Some? && preferences.value.theme.Some? ==>
      root.tokens == ThemedTokens(old(root.tokens), preferences.value.theme.value, systemDark)
  {
    if preferences.Some? && preferences.value.theme.Some? {
      var theme := preferences.value.theme.value;
      root.Remove("light", "dark");
      var c := ThemeClass(theme, systemDark);
      root.Add(c);
    }
  }
}
