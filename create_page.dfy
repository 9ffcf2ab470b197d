/**
 * The story-creation wizard: a theme carousel and input, a canned six-page
 * story produced after a delay, illustration settings edited key by key, an
 * illustration pass that stamps every page with a scene image and one shared
 * settings snapshot, and a page cursor over the preview.
 */
module CreatePage {
  import opened Common
  import opened Records

  datatype Step = ThemeStep | StoryStep | IllustrationSettingsStep | IllustrationStep

  /** The step changes the wizard's handlers and buttons can make. */
  predicate StepTransition(from: Step, to: Step)
  {
    || (from == ThemeStep && to == StoryStep)
    || (from == StoryStep && to == IllustrationSettingsStep)
    || (from == IllustrationSettingsStep && to == StoryStep)
    || (from == IllustrationSettingsStep && to == IllustrationStep)
  }

  /**
   * No handler leads back to the theme step: no disjunct of `StepTransition`
   * has the theme step as its target.
   */
  lemma NoTransitionIntoTheme(from: Step)
    ensures !StepTransition(from, ThemeStep)
  {
  }

  // ---------------------------------------------------------------------------
  // Constants of the page

  /** Titles of the recommended themes shown in the carousel. */
  const RecommendedThemes: seq<string> :=
    ["火烈鸟和狐狸的友谊", "农夫与蛇的智慧较量", "小马过河的勇气", "国王和农夫的交易", "聪明的狐狸和笨鸟"]

  const ThemeCount: nat := 5

  /** The number of pages of the generated story. */
  const StoryLength: nat := 6

  /** The initial illustration settings. */
  const DefaultSettings: Settings := map["model" := "model1", "aspectRatio" := "16:9"]

  /** One page of the canned story; its long texts are stood in for by short placeholders. */
  function CannedPage(n: nat, title: string, chineseTitle: string): Page
  {
    var tag := "scene " + DecimalString(n);
    Page(Some(title), Some(chineseTitle), tag + " text", tag + " prompt", Some(tag + " prompt (zh)"), None, None)
  }

  /** The story `handleGenerate` produces, whatever the theme. */
  const CannedStory: seq<Page> := [
    CannedPage(1, "The Lonely Prince's Planet", "孤独王子的星球"),
    CannedPage(2, "The Unexpected Visitor", "意外的访客"),
    CannedPage(3, "Journey Beyond the Known", "超越已知的旅程"),
    CannedPage(4, "The Asteroid Kingdom", "小行星王国"),
    CannedPage(5, "The Rose's Memory", "玫瑰的回忆"),
    CannedPage(6, "The Final Revelation", "最后的启示")
  ]

  // ---------------------------------------------------------------------------
  // Theme carousel

  /** `handleNextTheme`: `(prev + 1) % recommendedThemes.length`. */
  function NextThemeIndex(i: nat): (r: nat)
    ensures r < ThemeCount
    ensures i + 1 < ThemeCount ==> r == i + 1
    ensures i + 1 == ThemeCount ==> r == 0
  {
    (i + 1) % ThemeCount
  }

  /** `handlePrevTheme`: the index before `i`, wrapping from the first to the last. */
  function PrevThemeIndex(i: nat): (r: nat)
    ensures i < ThemeCount ==> r < ThemeCount && r == (i + ThemeCount - 1) % ThemeCount
  {
    if i == 0 then ThemeCount - 1 else i - 1
  }

  /** Stepping the carousel forward and back are inverse to each other. */
  lemma ThemeStepsInverse(i: nat)
    requires i < ThemeCount
    ensures PrevThemeIndex(NextThemeIndex(i)) == i
    ensures NextThemeIndex(PrevThemeIndex(i)) == i
  {
  }

  /** The index after `k` steps forward. */
  function NextThemeTimes(i: nat, k: nat): nat
  {
    if k == 0 then i else NextThemeIndex(NextThemeTimes(i, k - 1))
  }

  /** `k` steps forward wrap around modulo the number of themes. */
  lemma {:induction false} NextThemeTimesWraps(i: nat, k: nat)
    requires i < ThemeCount
    ensures NextThemeTimes(i, k) == (i + k) % ThemeCount
  {
    if k > 0 {
      NextThemeTimesWraps(i, k - 1);
      SuccessorMod(i + k - 1);
    }
  }

  /** One step forward from a residue is the residue of the successor. */
  lemma SuccessorMod(x: nat)
    ensures ((x % ThemeCount) + 1) % ThemeCount == (x + 1) % ThemeCount
  {
    var q, r := x / ThemeCount, x % ThemeCount;
    assert x == ThemeCount * q + r;
    if r + 1 < ThemeCount {
      assert (x + 1) / ThemeCount == q;
    } else {
      assert x + 1 == ThemeCount * (q + 1);
    }
  }

  // ---------------------------------------------------------------------------
  // Page cursor of the preview

  /** `handlePrevPage`: `Math.max(0, prev - 1)`. */
  function PrevPageIndex(p: int): (r: int)
    ensures r >= 0 && r >= p - 1
    ensures r == 0 || r == p - 1
  {
    if p - 1 > 0 then p - 1 else 0
  }

  /** `handleNextPage`: `Math.min(generatedStory.length - 1, prev + 1)`. */
  function NextPageIndex(p: int, len: nat): (r: int)
    ensures r <= len - 1 && r <= p + 1
    ensures r == len - 1 || r == p + 1
  {
    if len - 1 < p + 1 then len - 1 else p + 1
  }

  /** On a non-empty story both moves keep the cursor on a page. */
  lemma PageCursorStaysInRange(p: int, len: nat)
    requires 0 <= p < len
    ensures 0 <= PrevPageIndex(p) < len
    ensures 0 <= NextPageIndex(p, len) < len
  {
  }

  /** On an empty story "next" moves the cursor to -1. */
  lemma NextPageOnEmptyStory(p: int)
    requires p >= -2
    ensures NextPageIndex(p, 0) == -1
  {
  }

  // ---------------------------------------------------------------------------
  // Illustration pass

  const ScenePrefix: string := "/picbook/scene_"
  const SceneSuffix: string := ".png"

  /** The image of page `i`: `/picbook/scene_${i + 1}.png`. */
  function SceneUrl(i: nat): (url: string)
    ensures |url| > |ScenePrefix| + |SceneSuffix|
  {
    ScenePrefix + DecimalString(i + 1) + SceneSuffix
  }

  /** Different pages get different images. */
  lemma SceneUrlInjective(i: nat, j: nat)
    ensures SceneUrl(i) == SceneUrl(j) <==> i == j
  {
    if SceneUrl(i) == SceneUrl(j) {
      var u := SceneUrl(i);
      assert u[|ScenePrefix|..|u| - |SceneSuffix|] == DecimalString(i + 1);
      assert SceneUrl(j)[|ScenePrefix|..|u| - |SceneSuffix|] == DecimalString(j + 1);
      DecimalStringInjective(i + 1, j + 1);
    }
  }

  /** `a` and `b` agree on every field except the image and its settings. */
  predicate SameText(a: Page, b: Page)
  {
    && a.title == b.title
    && a.chineseTitle == b.chineseTitle
    && a.content == b.content
    && a.imagePrompt == b.imagePrompt
    && a.imagePromptChinese == b.imagePromptChinese
  }

  /** Page `i` shows scene `i + 1` and every page carries the snapshot `settings`. */
  predicate Illustrated(pages: seq<Page>, settings: Settings)
  {
    forall i :: 0 <= i < |pages| ==>
      pages[i].imageUrl == Some(SceneUrl(i)) && pages[i].illustrationSettings == Some(settings)
  }

  /** The pages of `handleGenerateIllustrations`: each page stamped, nothing else touched. */
  function WithIllustrations(pages: seq<Page>, settings: Settings): (r: seq<Page>)
    ensures |r| == |pages|
    ensures forall i :: 0 <= i < |r| ==> SameText(r[i], pages[i])
    ensures Illustrated(r, settings)
  {
    seq(|pages|, i requires 0 <= i < |pages| =>
      pages[i].(imageUrl := Some(SceneUrl(i)), illustrationSettings := Some(settings)))
  }

  /** Running the illustration pass again replaces every image and snapshot of the earlier pass. */
  lemma RegenerationOverwrites(pages: seq<Page>, first: Settings, second: Settings)
    ensures WithIllustrations(WithIllustrations(pages, first), second) == WithIllustrations(pages, second)
  {
    var a := WithIllustrations(WithIllustrations(pages, first), second);
    var b := WithIllustrations(pages, second);
    assert |a| == |b|;
    forall i | 0 <= i < |a| ensures a[i] == b[i] {
    }
  }

  // ---------------------------------------------------------------------------
  // The component's state

  class CreateWizard {
    var theme: string
    var isGenerating: bool
    var step: Step
    var currentPage: int
    var generatedStory: seq<Page>
    var isGeneratingImages: bool
    var currentThemeIndex: nat
    var illustrationSettings: Settings

    /** What holds between any two events. */
    ghost predicate Valid()
      reads this
    {
      && currentThemeIndex < ThemeCount
      && "model" in illustrationSettings && "aspectRatio" in illustrationSettings
      && !isGeneratingImages
      && (isGenerating ==> step == ThemeStep)
      && (step == ThemeStep ==> generatedStory == [])
      && (step != ThemeStep ==> |generatedStory| == StoryLength)
      && (step == IllustrationStep ==>
            && 0 <= currentPage < |generatedStory|
            && generatedStory[0].illustrationSettings.Some?
            && Illustrated(generatedStory, generatedStory[0].illustrationSettings.value))
    }

    constructor ()
      ensures Valid()
      ensures theme == "" && !isGenerating && step == ThemeStep && currentPage == 0
      ensures generatedStory == [] && !isGeneratingImages && currentThemeIndex == 0
      ensures illustrationSettings == DefaultSettings
    {
      theme := "";
      isGenerating := false;
      step := ThemeStep;
      currentPage := 0;
      generatedStory := [];
      isGeneratingImages := false;
      currentThemeIndex := 0;
      illustrationSettings := DefaultSettings;
    }

    /** The "start" button is enabled when the trimmed theme is non-empty and no generation runs. */
    function GenerateEnabled(): (b: bool)
      reads this
      ensures b <==> !IsBlank(theme) && !isGenerating
    {
      TrimEmptyIffBlank(theme);
      Trim(theme) != "" && !isGenerating
    }

    /** Typing into the theme input. */
    method EnterTheme(text: string)
      requires Valid()
      modifies this`theme
      ensures Valid() && theme == text
    {
      theme := text;
    }

    /** Clicking the carousel card copies its title into the input. */
    method SelectSuggestedTheme()
      requires Valid()
      modifies this`theme
      ensures Valid() && theme == RecommendedThemes[currentThemeIndex]
    {
      theme := RecommendedThemes[currentThemeIndex];
    }

    /** The "clear" button. */
    method ClearTheme()
      requires Valid()
      modifies this`theme
      ensures Valid() && theme == ""
    {
      theme := "";
    }

    method HandleNextTheme()
      requires Valid()
      modifies this`currentThemeIndex
      ensures Valid() && currentThemeIndex == NextThemeIndex(old(currentThemeIndex))
    {
      currentThemeIndex := NextThemeIndex(currentThemeIndex);
    }

    method HandlePrevTheme()
      requires Valid()
      modifies this`currentThemeIndex
      ensures Valid() && currentThemeIndex == PrevThemeIndex(old(currentThemeIndex))
    {
      currentThemeIndex := PrevThemeIndex(currentThemeIndex);
    }

    /** Clicking one of the carousel's dots. */
    method SelectThemeDot(index: nat)
      requires Valid() && index < ThemeCount
      modifies this`currentThemeIndex
      ensures Valid() && currentThemeIndex == index
    {
      currentThemeIndex := index;
    }

    /**
     * `handleGenerate`, up to its timer: nothing happens on a blank theme;
     * otherwise generation starts. Its button exists only in the theme step
     * and is disabled while a generation runs.
     */
    method HandleGenerate()
      requires Valid() && step == ThemeStep && !isGenerating
      modifies this`isGenerating
      ensures Valid()
      ensures isGenerating <==> !IsBlank(theme)
    {
      TrimEmptyIffBlank(theme);
      if Trim(theme) == "" {
        return;
      }
      isGenerating := true;
    }

    /** The timer callback of `handleGenerate`: the six-page story is shown. */
    method FinishGeneration()
      requires Valid() && isGenerating
      modifies this`generatedStory, this`isGenerating, this`step
      ensures Valid()
      ensures generatedStory == CannedStory && |generatedStory| == StoryLength
      ensures !isGenerating && step == StoryStep && StepTransition(old(step), step)
    {
      generatedStory := CannedStory;
      isGenerating := false;
      step := StoryStep;
    }

    /** The "illustration settings" button of the story step. */
    method OpenIllustrationSettings()
      requires Valid() && step == StoryStep
      modifies this`step
      ensures Valid() && step == IllustrationSettingsStep && StepTransition(old(step), step)
    {
      step := IllustrationSettingsStep;
    }

    /** The "back" button of the settings step. */
    method BackToStory()
      requires Valid() && step == IllustrationSettingsStep
      modifies this`step
      ensures Valid() && step == StoryStep && StepTransition(old(step), step)
    {
      step := StoryStep;
    }

    /** `handleUpdateIllustrationSettings(key, value)`: sets one key and keeps the others. */
    method HandleUpdateIllustrationSettings(key: string, value: string)
      requires Valid()
      modifies this`illustrationSettings
      ensures Valid()
      ensures key in illustrationSettings && illustrationSettings[key] == value
      ensures illustrationSettings.Keys == old(illustrationSettings).Keys + {key}
      ensures forall k :: k in old(illustrationSettings) && k != key ==>
        illustrationSettings[k] == old(illustrationSettings)[k]
    {
      illustrationSettings := illustrationSettings[key := value];
    }

    /** `handleGenerateIllustrations`: stamps every page and shows the first page of the preview. */
    method HandleGenerateIllustrations()
      requires Valid() && step == IllustrationSettingsStep
      modifies this`isGeneratingImages, this`currentPage, this`generatedStory, this`step
      ensures Valid()
      ensures generatedStory == WithIllustrations(old(generatedStory), illustrationSettings)
      ensures currentPage == 0 && !isGeneratingImages
      ensures step == IllustrationStep && StepTransition(old(step), step)
    {
      isGeneratingImages := true;
      currentPage := 0;
      generatedStory := WithIllustrations(generatedStory, illustrationSettings);
      isGeneratingImages := false;
      step := IllustrationStep;
    }

    method HandlePrevPage()
      requires Valid()
      modifies this`currentPage
      ensures Valid() && currentPage == PrevPageIndex(old(currentPage))
    {
      currentPage := PrevPageIndex(currentPage);
    }

    method HandleNextPage()
      requires Valid()
      modifies this`currentPage
      ensures Valid() && currentPage == NextPageIndex(old(currentPage), |generatedStory|)
    {
      currentPage := NextPageIndex(currentPage, |generatedStory|);
    }

    /** Clicking a thumbnail of the preview. */
    method SelectPreviewPage(index: int)
      requires Valid() && step == IllustrationStep && 0 <= index < |generatedStory|
      modifies this`currentPage
      ensures Valid() && currentPage == index
    {
      currentPage := index;
    }
  }
}
