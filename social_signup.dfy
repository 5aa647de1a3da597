/** The social sign-up draft (hooks/use-social-signup.tsx): an optional draft that a provider
    login starts and that the name, level and category screens update. Each updater is a function
    of the current draft; the provider component holds the draft in one mutable field. */
module SocialSignUp {
  import opened Common
  import opened Enums
  import opened Text
  import opened Seqs

  /** What has been collected so far. */
  datatype SignupDraft = SignupDraft(
    provider: SocialProvider,
    idToken: string,
    koreanName: string,
    englishName: string,
    level: Option<Level>,
    categories: seq<Category>)

  /** `start`: a fresh draft for the given login, with nothing else filled in. */
  function Started(provider: SocialProvider, idToken: string): (d: SignupDraft)
    ensures d.provider == provider && d.idToken == idToken
    ensures d.koreanName == "" && d.englishName == "" && d.level == None && d.categories == []
  {
    SignupDraft(provider, idToken, "", "", None, [])
  }

  /** `setNames`: stores both names trimmed; a missing draft stays missing. */
  function WithNames(current: Option<SignupDraft>, koreanName: string, englishName: string): (r: Option<SignupDraft>)
    ensures r.Some? <==> current.Some?
    ensures current.Some? ==>
      && r.value.koreanName == Trim(koreanName) && r.value.englishName == Trim(englishName)
      && r.value.provider == current.value.provider && r.value.idToken == current.value.idToken
      && r.value.level == current.value.level && r.value.categories == current.value.categories
  {
    match current
    case None => None
    case Some(d) => Some(d.(koreanName := Trim(koreanName), englishName := Trim(englishName)))
  }

  /** `setLevel`: changes only the level; a missing draft stays missing. */
  function WithLevel(current: Option<SignupDraft>, level: Level): (r: Option<SignupDraft>)
    ensures r.Some? <==> current.Some?
    ensures current.Some? ==> r.value == current.value.(level := Some(level))
  {
    match current
    case None => None
    case Some(d) => Some(d.(level := Some(level)))
  }

  /** The category list after a toggle: the category removed if present, otherwise appended. */
  function Toggled(categories: seq<Category>, category: Category): (r: seq<Category>)
    ensures category in r <==> category !in categories
    ensures forall i :: 0 <= i < |categories| && categories[i] != category ==> categories[i] in r
    ensures forall i :: 0 <= i < |r| && r[i] != category ==> r[i] in categories
    // an absent category goes at the end; a present one is filtered out, the others keeping their order
    ensures category !in categories ==> r == categories + [category]
    ensures category in categories ==> r == Without(categories, category)
  {
    if category in categories then Without(categories, category) else categories + [category]
  }

  /** `toggleCategory`: changes only the categories; a missing draft stays missing. */
  function WithCategoryToggled(current: Option<SignupDraft>, category: Category): (r: Option<SignupDraft>)
    ensures r.Some? <==> current.Some?
    ensures current.Some? ==> r.value == current.value.(categories := Toggled(current.value.categories, category))
  {
    match current
    case None => None
    case Some(d) => Some(d.(categories := Toggled(d.categories, category)))
  }

  /** A present draft keeps its categories free of duplicates. */
  predicate WellFormed(draft: Option<SignupDraft>) {
    draft.Some? ==> NoDuplicates(draft.value.categories)
  }

  /** Every updater keeps the categories free of duplicates, so every draft reached from `start`
      has none. */
  lemma UpdatersKeepWellFormed(draft: Option<SignupDraft>, ko: string, en: string, level: Level, category: Category)
    requires WellFormed(draft)
    ensures WellFormed(WithNames(draft, ko, en))
    ensures WellFormed(WithLevel(draft, level))
    ensures WellFormed(WithCategoryToggled(draft, category))
  {
    if draft.Some? {
      var cs := draft.value.categories;
      if category in cs {
        WithoutNoDuplicates(cs, category);
      } else {
        AppendNoDuplicates(cs, category);
      }
    }
  }

  /** Toggling an absent category twice restores the list exactly. */
  lemma ToggleAbsentTwice(categories: seq<Category>, category: Category)
    requires category !in categories
    ensures Toggled(Toggled(categories, category), category) == categories
  {
    WithoutConcat(categories, [category], category);
    WithoutAbsent(categories, category);
    assert Without([category], category) == [];
  }

  /** Toggling a present category twice moves it to the end and keeps every other category in its
      place. */
  lemma TogglePresentTwice(categories: seq<Category>, category: Category)
    requires category in categories
    ensures Toggled(Toggled(categories, category), category) == Without(categories, category) + [category]
  {
  }

  /** `useSocialSignUp`: the context value inside the provider; outside it, an error. */
  function UseSocialSignUp<T>(context: Option<T>): (r: Result<T>)
    ensures r.Ok? <==> context.Some?
    ensures r.Ok? ==> r.value == context.value
    ensures r.Err? ==> r.message == "useSocialSignUp must be used within SocialSignUpProvider"
  {
    UseContext(context, "useSocialSignUp must be used within SocialSignUpProvider")
  }

  /** `SocialSignUpProvider`: the one mutable draft and the actions that rewrite it. */
  class SocialSignUpProvider {
    var draft: Option<SignupDraft>

    ghost predicate Valid()
      reads this
    {
      WellFormed(draft)
    }

    constructor ()
      ensures Valid() && draft == None
    {
      draft := None;
    }

    method Start(provider: SocialProvider, idToken: string)
      requires Valid()
      modifies this
      ensures Valid() && draft == Some(Started(provider, idToken))
    {
      draft := Some(Started(provider, idToken));
    }

    method SetNames(koreanName: string, englishName: string)
      requires Valid()
      modifies this
      ensures Valid() && draft == WithNames(old(draft), koreanName, englishName)
    {
      draft := WithNames(draft, koreanName, englishName);
    }

    method SetLevel(level: Level)
      requires Valid()
      modifies this
      ensures Valid() && draft == WithLevel(old(draft), level)
    {
      draft := WithLevel(draft, level);
    }

    method ToggleCategory(category: Category)
      requires Valid()
      modifies this
      ensures Valid() && draft == WithCategoryToggled(old(draft), category)
    {
      UpdatersKeepWellFormed(draft, "", "", Beginner, category);
      draft := WithCategoryToggled(draft, category);
    }

    /** `reset`: no draft, from any state. */
    method Reset()
      requires Valid()
      modifies this
      ensures Valid() && draft == None
    {
      draft := None;
    }
  }
}
