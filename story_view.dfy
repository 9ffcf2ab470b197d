/**
 * The story viewer page: loads one stored story by the route's id, reports a
 * missing story or a story without pages, and moves a page cursor over the
 * loaded story.
 */
module StoryView {
  import opened Common
  import opened Records
  import opened Storage
  import StoryService

  datatype LoadError =
    | NoPages   // the story exists but has no page
    | NotFound  // no stored story has the id

  /** What the load effect does with the result of `getStory(id)`. */
  datatype LoadOutcome = Shown(story: Story) | Failed(error: LoadError)

  /** Classifies a lookup result: not found, found without pages, or showable. */
  function Classify(found: Option<Story>): (o: LoadOutcome)
    ensures found.None? <==> o == Failed(NotFound)
    ensures o == Failed(NoPages) <==>
      found.Some? && (found.value.pages.None? || found.value.pages.value == [])
    ensures o.Shown? <==> found.Some? && found.value.pages.Some? && found.value.pages.value != []
    ensures o.Shown? ==> o.story == found.value
  {
    match found
    case None => Failed(NotFound)
    case Some(s) => if s.pages.None? || |s.pages.value| == 0 then Failed(NoPages) else Shown(s)
  }

  /** `goToNextPage`: move on unless the cursor is on the last page. */
  function NextViewerPage(p: int, len: nat): (r: int)
    ensures p < len - 1 ==> r == p + 1
    ensures p >= len - 1 ==> r == p
  {
    if p < len - 1 then p + 1 else p
  }

  /** `goToPreviousPage`: move back unless the cursor is on the first page. */
  function PrevViewerPage(p: int): (r: int)
    ensures p > 0 ==> r == p - 1
    ensures p <= 0 ==> r == p
  {
    if p > 0 then p - 1 else p
  }

  /** Both moves keep a cursor that is on a page on a page. */
  lemma ViewerCursorStaysInRange(p: int, len: nat)
    requires 0 <= p < len
    ensures 0 <= NextViewerPage(p, len) < len
    ensures 0 <= PrevViewerPage(p) < len
  {
  }

  /** Going forward and then back returns to the same page, except from the last page. */
  lemma ViewerNextThenPrev(p: int, len: nat)
    requires 0 <= p < len - 1
    ensures PrevViewerPage(NextViewerPage(p, len)) == p
  {
  }

  /** `len - 1` steps forward from the first page reach the last page, and then stop. */
  function NextViewerTimes(p: int, len: nat, k: nat): int
  {
    if k == 0 then p else NextViewerPage(NextViewerTimes(p, len, k - 1), len)
  }

  lemma {:induction false} NextViewerTimesStops(len: nat, k: nat)
    requires len > 0
    ensures NextViewerTimes(0, len, k) == if k < len - 1 then k else len - 1
  {
    if k > 0 {
      NextViewerTimesStops(len, k - 1);
    }
  }

  class StoryViewer {
    const store: LocalStorage
    var story: Option<Story>
    var currentPage: int
    var error: Option<LoadError>

    /** A shown story always has pages. */
    ghost predicate Valid()
      reads this
    {
      story.Some? ==> story.value.pages.Some? && |story.value.pages.value| > 0
    }

    /** The cursor is on a page of the shown story. */
    predicate CursorOnPage()
      reads this
    {
      story.Some? && 0 <= currentPage < PageCount(story.value)
    }

    constructor (store: LocalStorage)
      ensures this.store == store
      ensures Valid() && story == None && currentPage == 0 && error == None
    {
      this.store := store;
      story := None;
      currentPage := 0;
      error := None;
    }

    /**
     * The load effect for route parameter `id`. It neither clears an earlier
     * error or story nor resets the cursor.
     */
    method Load(id: Option<string>)
      requires Valid()
      modifies this
      ensures Valid()
      ensures !Truthy(id) ==> story == old(story) && error == old(error) && currentPage == old(currentPage)
      ensures Truthy(id) ==>
        match Classify(StoryService.GetStory(store, id.value))
        case Failed(e) => error == Some(e) && story == old(story) && currentPage == old(currentPage)
        case Shown(s) => story == Some(s) && error == old(error) && currentPage == old(currentPage)
      ensures Truthy(id) && Classify(StoryService.GetStory(store, id.value)).Shown? ==>
        (CursorOnPage() <==> 0 <= old(currentPage) < PageCount(story.value))
    {
      if !Truthy(id) {
        return;
      }
      var storyData := StoryService.GetStory(store, id.value);
      if storyData.Some? {
        if storyData.value.pages.None? || |storyData.value.pages.value| == 0 {
          error := Some(NoPages);
          return;
        }
        story := storyData;
      } else {
        error := Some(NotFound);
      }
    }

    method GoToNextPage()
      requires Valid() && story.Some?
      modifies this`currentPage
      ensures Valid()
      ensures currentPage == NextViewerPage(old(currentPage), PageCount(story.value))
      ensures old(CursorOnPage()) ==> CursorOnPage()
    {
      if currentPage < |story.value.pages.value| - 1 {
        currentPage := currentPage + 1;
      }
    }

    method GoToPreviousPage()
      requires Valid() && story.Some?
      modifies this`currentPage
      ensures Valid()
      ensures currentPage == PrevViewerPage(old(currentPage))
      ensures old(CursorOnPage()) ==> CursorOnPage()
    {
      if currentPage > 0 {
        currentPage := currentPage - 1;
      }
    }

    /** Clicking thumbnail `index`. */
    method SelectPage(index: int)
      requires Valid() && story.Some? && 0 <= index < PageCount(story.value)
      modifies this`currentPage
      ensures Valid() && currentPage == index && CursorOnPage()
    {
      currentPage := index;
    }
  }
}
