/**
 * The story store: save a story for the logged-in user, list that user's
 * stories, and look a story up by id, all over the `stories` key.
 */
module StoryService {
  import opened Common
  import opened Records
  import opened Storage

  datatype SaveError = NotLoggedIn

  const IdPrefix: string := "story_"

  /** The id given to a story saved at millisecond `nowMs`: `story_${Date.now()}`. */
  function StoryId(nowMs: nat): (id: string)
    ensures |id| > |IdPrefix| && id[..|IdPrefix|] == IdPrefix
    ensures AllDigits(id[|IdPrefix|..])
  {
    IdPrefix + DecimalString(nowMs)
  }

  /** Two saves get the same id exactly when they happen in the same millisecond. */
  lemma StoryIdInjective(a: nat, b: nat)
    ensures StoryId(a) == StoryId(b) <==> a == b
  {
    if StoryId(a) == StoryId(b) {
      assert StoryId(a)[|IdPrefix|..] == DecimalString(a);
      assert StoryId(b)[|IdPrefix|..] == DecimalString(b);
      DecimalStringInjective(a, b);
    }
  }

  /** The filter callback `story => story.userId === owner`. */
  function OwnedBy(owner: string): Story -> bool
  {
    (s: Story) => s.userId == owner
  }

  /** The stories of the logged-in user, in stored order; none when nobody is logged in. */
  function GetUserStories(store: LocalStorage): (r: seq<Story>)
    reads store
    ensures !Truthy(store.userPhone) ==> r == []
    ensures forall s :: s in r <==>
      Truthy(store.userPhone) && s in store.stories && s.userId == store.userPhone.value
    ensures |r| <= |store.stories|
  {
    if !Truthy(store.userPhone) then [] else Filter(store.stories, OwnedBy(store.userPhone.value))
  }

  /** `i` is the position of the first story whose id is `id`. */
  predicate IsFirstWithId(stories: seq<Story>, id: string, i: int)
  {
    0 <= i < |stories| && stories[i].id == id && forall j :: 0 <= j < i ==> stories[j].id != id
  }

  /** `Array.prototype.find` by id: the first story with that id, or none. */
  function FindStory(stories: seq<Story>, id: string): (r: Option<Story>)
    ensures r.None? <==> forall i :: 0 <= i < |stories| ==> stories[i].id != id
    ensures r.Some? ==> exists i :: IsFirstWithId(stories, id, i) && stories[i] == r.value
  {
    if stories == [] then None
    else if stories[0].id == id then
      assert IsFirstWithId(stories, id, 0);
      Some(stories[0])
    else
      var r := FindStory(stories[1..], id);
      if r.Some? then
        var i :| IsFirstWithId(stories[1..], id, i) && stories[1..][i] == r.value;
        assert IsFirstWithId(stories, id, i + 1);
        r
      else
        r
  }

  /** `getStory(id)`: the first stored story with that id, or null. */
  function GetStory(store: LocalStorage, id: string): (r: Option<Story>)
    reads store
    ensures r.None? <==> forall s :: s in store.stories ==> s.id != id
    ensures r.Some? ==> r.value in store.stories && r.value.id == id
    ensures r.Some? ==> exists i :: IsFirstWithId(store.stories, id, i) && store.stories[i] == r.value
  {
    FindStory(store.stories, id)
  }

  /**
   * Looking up an id after appending a story: an earlier story with the same
   * id still wins; otherwise the appended story is found.
   */
  lemma {:induction false} FindAfterAppend(stories: seq<Story>, s: Story)
    ensures FindStory(stories + [s], s.id)
      == if FindStory(stories, s.id).Some? then FindStory(stories, s.id) else Some(s)
  {
    if stories == [] {
      assert stories + [s] == [s];
    } else {
      assert (stories + [s])[1..] == stories[1..] + [s];
      FindAfterAppend(stories[1..], s);
    }
  }

  /** The record `saveStory` writes: the input with id, creation time and owner overridden. */
  function Stamped(draft: Story, owner: string, nowMs: nat, nowIso: string): (r: Story)
    ensures r.id == StoryId(nowMs) && r.createdAt == nowIso && r.userId == owner
    ensures r.(id := draft.id, createdAt := draft.createdAt, userId := draft.userId) == draft
  {
    draft.(id := StoryId(nowMs), createdAt := nowIso, userId := owner)
  }

  /**
   * `saveStory`: refuses when nobody is logged in; otherwise appends one
   * stamped record to the stored list and returns it.
   */
  method SaveStory(store: LocalStorage, draft: Story, nowMs: nat, nowIso: string)
    returns (r: Result<Story, SaveError>)
    modifies store
    ensures !Truthy(old(store.userPhone)) ==> r == Failure(NotLoggedIn) && unchanged(store)
    ensures Truthy(old(store.userPhone)) ==>
      && r == Success(Stamped(draft, old(store.userPhone).value, nowMs, nowIso))
      && store.stories == old(store.stories) + [r.value]
      && store.token == old(store.token)
      && store.userPhone == old(store.userPhone)
    ensures r.Success? ==> GetUserStories(store) == old(GetUserStories(store)) + [r.value]
    ensures r.Success? ==>
      GetStory(store, r.value.id)
        == if old(GetStory(store, r.value.id)).Some? then old(GetStory(store, r.value.id)) else Some(r.value)
  {
    var userId := store.userPhone;
    if !Truthy(userId) {
      return Failure(NotLoggedIn);
    }
    var newStory := Stamped(draft, userId.value, nowMs, nowIso);
    ghost var before := store.stories;
    store.stories := store.stories + [newStory];
    r := Success(newStory);
    FilterConcat(before, [newStory], OwnedBy(userId.value));
    FindAfterAppend(before, newStory);
  }
}
