/**
 * The records the application keeps: a picture-book page as the creation
 * wizard builds it, and a saved story as the story store keeps it.
 */
module Records {
  import opened Common

  /** Illustration settings: a plain object whose keys are set one at a time. */
  type Settings = map<string, string>

  /** One page of a picture book; the optional fields are `?:` properties. */
  datatype Page = Page(
    title: Option<string>,
    chineseTitle: Option<string>,
    content: string,
    imagePrompt: string,
    imagePromptChinese: Option<string>,
    imageUrl: Option<string>,
    illustrationSettings: Option<Settings>)

  /**
   * A saved story. `pages` is not declared by the store's interface, but the
   * list and viewer pages read it, so a record may or may not carry it.
   */
  datatype Story = Story(
    id: string,
    title: string,
    theme: string,
    content: string,
    imagePrompt: string,
    imageUrl: string,
    createdAt: string,
    userId: string,
    titleEn: Option<string>,
    contentEn: Option<string>,
    imagePromptEn: Option<string>,
    pages: Option<seq<Page>>)

  /** The number of pages of a story, `story.pages?.length || 0`. */
  function PageCount(s: Story): nat
  {
    if s.pages.Some? then |s.pages.value| else 0
  }
}

/**
 * The browser's `localStorage`, holding the three keys the application uses:
 * `token`, `userPhone` and `stories`. The `stories` key holds a JSON list; an
 * absent key reads as the empty list, so both are the empty sequence here.
 */
module Storage {
  import opened Common
  import opened Records

  class LocalStorage {
    var token: Option<string>
    var userPhone: Option<string>
    var stories: seq<Story>

    /** A fresh browser profile: no key is set. */
    constructor ()
      ensures token == None && userPhone == None && stories == []
    {
      token := None;
      userPhone := None;
      stories := [];
    }
  }
}
