/** The client's global UI store: which interface is shown and the user's
    preferences, updated in place by two setters. */
module AppStore {
  import opened Common

  /** `'public' | 'management'`: the store can hold no other interface. */
  datatype Interface = Public | Management

  datatype Theme = Light | Dark

  datatype Preferences = Preferences(theme: Theme, language: string)

  /** `Partial<userPreferences>`: a key left out is `None`. */
  datatype PartialPreferences = PartialPreferences(theme: Option<Theme>, language: Option<string>)

  const NoChanges := PartialPreferences(None, None)

  /** `{ ...prefs, ...partial }`: the keys the partial supplies win, the
      others keep their values. */
  function Merge(prefs: Preferences, partial: PartialPreferences): (r: Preferences)
    ensures partial.theme.Some? ==> r.theme == partial.theme.value
    ensures partial.theme.None? ==> r.theme == prefs.theme
    ensures partial.language.Some? ==> r.language == partial.language.value
    ensures partial.language.None? ==> r.language == prefs.language
  {
    Preferences(partial.theme.GetOr(prefs.theme), partial.language.GetOr(prefs.language))
  }

  /** Two partials spread one after the other, as one partial. */
  function Then(first: PartialPreferences, second: PartialPreferences): PartialPreferences {
    PartialPreferences(second.theme.OrElse(first.theme), second.language.OrElse(first.language))
  }

  /** An empty partial changes nothing. */
  lemma MergeNothing(prefs: Preferences)
    ensures Merge(prefs, NoChanges) == prefs
  {
  }

  /** Applying the same partial twice is applying it once. */
  lemma MergeIdempotent(prefs: Preferences, partial: PartialPreferences)
    ensures Merge(Merge(prefs, partial), partial) == Merge(prefs, partial)
  {
  }

  /** Two updates in a row are one update with the later keys winning. */
  lemma MergeSequence(prefs: Preferences, first: PartialPreferences, second: PartialPreferences)
    ensures Merge(Merge(prefs, first), second) == Merge(prefs, Then(first, second))
  {
  }

  /** A partial that supplies every key replaces the preferences outright. */
  lemma MergeFull(prefs: Preferences, theme: Theme, language: string)
    ensures Merge(prefs, PartialPreferences(Some(theme), Some(language))) == Preferences(theme, language)
  {
  }

  const InitialPreferences := Preferences(Light, "en")

  class Store {
    var currentInterface: Interface
    var userPreferences: Preferences

    /** The initial state: the public interface, light theme, English. */
    constructor ()
      ensures currentInterface == Public && userPreferences == InitialPreferences
    {
      currentInterface := Public;
      userPreferences := InitialPreferences;
    }

    /** `setCurrentInterface` changes the interface and nothing else. */
    method SetCurrentInterface(interfaceType: Interface)
      modifies this
      ensures currentInterface == interfaceType && userPreferences == old(userPreferences)
    {
      currentInterface := interfaceType;
    }

    /** `setUserPreferences` shallow-merges the partial into the preferences
        and leaves the interface alone. */
    method SetUserPreferences(preferences: PartialPreferences)
      modifies this
      ensures userPreferences == Merge(old(userPreferences), preferences)
      ensures currentInterface == old(currentInterface)
    {
      userPreferences := Merge(userPreferences, preferences);
    }
  }
}
