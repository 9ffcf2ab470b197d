/**
 * The "my stories" page: shown only to an authenticated user, it lists the
 * stored stories of the current phone number, deletes by id after a
 * confirmation, and renders each card with fallbacks for cover, title and
 * page count.
 */
module MyStoriesPage {
  import opened Common
  import opened Records
  import opened Storage
  import AuthService
  import StoryService
  import StoryView

  const LoginRoute: string := "/login"
  const DefaultCover: string := "/default-book-cover.png"
  const UntitledPlaceholder: string := "未命名绘本"

  /** The load effect's callback `story => story.userId === userPhone`; a null phone matches nothing. */
  function OwnerIs(userPhone: Option<string>): Story -> bool
  {
    (s: Story) => userPhone == Some(s.userId)
  }

  /** The delete handler's callback `story => story.id !== storyId`. */
  function IdIsNot(storyId: string): Story -> bool
  {
    (s: Story) => s.id != storyId
  }

  /** The list the page loads: the stored stories whose owner is the stored phone, in order. */
  function LoadedStories(userPhone: Option<string>, all: seq<Story>): (r: seq<Story>)
    ensures forall s :: s in r <==> s in all && userPhone == Some(s.userId)
    ensures userPhone.None? ==> r == []
  {
    var r := Filter(all, OwnerIs(userPhone));
    assert r != [] ==> r[0] in r;
    r
  }

  /**
   * Unless the stored phone is the empty string, the page shows exactly what
   * `getUserStories` returns. (With an empty stored phone the service returns
   * nothing while the page still matches stories whose owner is empty.)
   */
  lemma LoadedAgreesWithService(store: LocalStorage)
    requires store.userPhone != Some("")
    ensures LoadedStories(store.userPhone, store.stories) == StoryService.GetUserStories(store)
  {
    if store.userPhone.Some? {
      LoadedFilterEquals(store.stories, store.userPhone.value);
    }
  }

  lemma {:induction false} LoadedFilterEquals(all: seq<Story>, owner: string)
    ensures Filter(all, OwnerIs(Some(owner))) == Filter(all, StoryService.OwnedBy(owner))
  {
    if all != [] {
      LoadedFilterEquals(all[1..], owner);
    }
  }

  /** The stories a confirmed delete leaves, in order. */
  function AfterDelete(shown: seq<Story>, storyId: string): (r: seq<Story>)
    ensures forall s :: s in r <==> s in shown && s.id != storyId
    ensures |r| <= |shown|
  {
    Filter(shown, IdIsNot(storyId))
  }

  /** A delete leaves the list as it is exactly when no shown story has the id. */
  lemma DeleteAbsentIdKeepsList(shown: seq<Story>, storyId: string)
    ensures AfterDelete(shown, storyId) == shown <==> forall s :: s in shown ==> s.id != storyId
  {
    if forall s :: s in shown ==> s.id != storyId {
      assert forall i :: 0 <= i < |shown| ==> shown[i] in shown;
      FilterKeepsAll(shown, IdIsNot(storyId));
    }
  }

  /**
   * What a delete writes back to storage: only the current user's remaining
   * stories, so every story of another owner is gone from storage.
   */
  lemma DeleteDropsOtherOwners(all: seq<Story>, userPhone: Option<string>, storyId: string)
    ensures forall s :: s in AfterDelete(LoadedStories(userPhone, all), storyId) <==>
      s in all && userPhone == Some(s.userId) && s.id != storyId
    ensures forall s :: s in all && userPhone != Some(s.userId) ==>
      s !in AfterDelete(LoadedStories(userPhone, all), storyId)
  {
  }

  /** Deleting keeps the order of the remaining stories: it commutes with appending. */
  lemma DeleteKeepsOrder(front: seq<Story>, back: seq<Story>, storyId: string)
    ensures AfterDelete(front + back, storyId) == AfterDelete(front, storyId) + AfterDelete(back, storyId)
  {
    FilterConcat(front, back, IdIsNot(storyId));
  }

  /** The card's background: the first page's image, or the default cover. */
  function CoverUrl(s: Story): (url: string)
    ensures url != ""
    ensures url == DefaultCover || (s.pages.Some? && |s.pages.value| > 0 && s.pages.value[0].imageUrl == Some(url))
    ensures s.pages.Some? && |s.pages.value| > 0 && Truthy(s.pages.value[0].imageUrl) ==>
      Some(url) == s.pages.value[0].imageUrl
  {
    if s.pages.Some? && |s.pages.value| > 0 && Truthy(s.pages.value[0].imageUrl)
    then s.pages.value[0].imageUrl.value
    else DefaultCover
  }

  /** The card's heading: the title, or a placeholder when it is empty. */
  function DisplayTitle(s: Story): (t: string)
    ensures t != ""
    ensures s.title != "" ==> t == s.title
    ensures s.title == "" ==> t == UntitledPlaceholder
  {
    if s.title != "" then s.title else UntitledPlaceholder
  }

  /**
   * A card reads "0 pages" exactly for a story the viewer refuses with its
   * no-pages error; every other card opens a story with that many pages.
   */
  lemma ZeroPagesIffViewerRefuses(s: Story)
    ensures PageCount(s) == 0 <==> StoryView.Classify(Some(s)) == StoryView.Failed(StoryView.NoPages)
    ensures PageCount(s) > 0 <==> StoryView.Classify(Some(s)) == StoryView.Shown(s)
  {
  }

  class MyStoriesView {
    const store: LocalStorage
    var stories: seq<Story>
    var isLoading: bool
    /** The route the page navigated to, if any. */
    var navigatedTo: Option<string>

    /** Nothing is listed while the page is still loading. */
    ghost predicate Valid()
      reads this
    {
      isLoading ==> stories == []
    }

    constructor (store: LocalStorage)
      ensures this.store == store
      ensures Valid() && stories == [] && isLoading && navigatedTo == None
    {
      this.store := store;
      stories := [];
      isLoading := true;
      navigatedTo := None;
    }

    /** The load effect: redirect when not logged in, otherwise show the user's stories. */
    method Load()
      requires Valid()
      modifies this
      ensures Valid()
      ensures !AuthService.IsAuthenticated(store) ==>
        && navigatedTo == Some(LoginRoute)
        && stories == old(stories) && isLoading == old(isLoading)
      ensures AuthService.IsAuthenticated(store) ==>
        && stories == LoadedStories(store.userPhone, store.stories)
        && !isLoading && navigatedTo == old(navigatedTo)
    {
      if !AuthService.IsAuthenticated(store) {
        navigatedTo := Some(LoginRoute);
        return;
      }
      var userPhone := store.userPhone;
      stories := LoadedStories(userPhone, store.stories);
      isLoading := false;
    }

    /**
     * `handleDeleteStory`: when confirmed, drops every shown story with that
     * id and overwrites the `stories` key with what is left. Its buttons
     * exist only once loading has finished.
     */
    method HandleDeleteStory(storyId: string, confirmed: bool)
      requires Valid() && !isLoading
      modifies this, store
      ensures Valid()
      ensures !confirmed ==> unchanged(this) && unchanged(store)
      ensures confirmed ==>
        && stories == AfterDelete(old(stories), storyId)
        && store.stories == stories
        && store.token == old(store.token) && store.userPhone == old(store.userPhone)
        && isLoading == old(isLoading) && navigatedTo == old(navigatedTo)
    {
      if confirmed {
        var updated := AfterDelete(stories, storyId);
        stories := updated;
        store.stories := updated;
      }
    }
  }
}
