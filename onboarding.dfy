/** The first-launch onboarding carousel: three slides paged through with
    next and previous, ending (from the last slide, or at once with skip)
    by recording in storage that onboarding has been seen and replacing the
    screen with the main tabs. */
module Onboarding {

  /** One slide of `onboardingData`; icon and gradient are presentation. */
  datatype Slide = Slide(id: int, title: string, subtitle: string)

  const Slides: seq<Slide> := [
    Slide(1, "Discover Amazing Events", "Find Your Next Adventure"),
    Slide(2, "Book Instantly", "Secure Your Spot"),
    Slide(3, "Smart QR Scanning", "Seamless Entry")
  ]

  const LastIndex := |Slides| - 1

  /** The screen that replaces onboarding when it ends. */
  const MainTabs := "MainTabs"

  /** The screen's state: the slide shown, the `hasSeenOnboarding` storage
      flag, and the screen the navigator was told to replace it with. */
  datatype Carousel = Carousel(index: int, hasSeenOnboarding: bool, replacedWith: string)

  /** The flag as the storage holds it when the screen opens, and no
      navigation yet. */
  function InitialCarousel(storedFlag: bool): Carousel
  {
    Carousel(0, storedFlag, "")
  }

  /** `navigateToLogin` and `skipOnboarding`: mark onboarding as seen, then
      go to the main tabs; the slide is left where it was. */
  function Finish(c: Carousel): (r: Carousel)
    ensures r.hasSeenOnboarding && r.replacedWith == MainTabs && r.index == c.index
  {
    c.(hasSeenOnboarding := true, replacedWith := MainTabs)
  }

  /** `nextSlide`: one slide on, or finish from the last slide. */
  function AfterNextSlide(c: Carousel): Carousel
  {
    if c.index < LastIndex then c.(index := c.index + 1) else Finish(c)
  }

  /** `previousSlide`: one slide back, nothing on the first slide. */
  function AfterPreviousSlide(c: Carousel): Carousel
  {
    if c.index > 0 then c.(index := c.index - 1) else c
  }

  datatype Gesture = Next | Previous | Skip

  function Press(c: Carousel, g: Gesture): Carousel
  {
    match g
    case Next => AfterNextSlide(c)
    case Previous => AfterPreviousSlide(c)
    case Skip => Finish(c)
  }

  function PressAll(c: Carousel, gs: seq<Gesture>): Carousel
    decreases |gs|
  {
    if gs == [] then c else PressAll(Press(c, gs[0]), gs[1..])
  }

  /** The slide shown always exists, and the screen is only ever replaced
      after the flag has been stored. */
  predicate CarouselInv(c: Carousel)
  {
    0 <= c.index <= LastIndex && (c.replacedWith != "" ==> c.hasSeenOnboarding)
  }

  lemma {:induction false} PressAllKeepsInv(c: Carousel, gs: seq<Gesture>)
    requires CarouselInv(c)
    ensures CarouselInv(PressAll(c, gs))
    decreases |gs|
  {
    if gs != [] {
      PressAllKeepsInv(Press(c, gs[0]), gs[1..]);
    }
  }

  /** From the first slide, whatever is pressed, the index stays within
      the three slides and leaving implies the flag is set. */
  lemma IndexInRange(storedFlag: bool, gs: seq<Gesture>)
    ensures var c := PressAll(InitialCarousel(storedFlag), gs);
            0 <= c.index <= LastIndex && (c.replacedWith == MainTabs ==> c.hasSeenOnboarding)
  {
    PressAllKeepsInv(InitialCarousel(storedFlag), gs);
  }

  /** Paging through: two presses of next reach the last slide without
      leaving, and the third finishes onboarding. */
  lemma ThreeNextsFinish(storedFlag: bool)
    ensures PressAll(InitialCarousel(storedFlag), [Next, Next]) == Carousel(LastIndex, storedFlag, "")
    ensures PressAll(InitialCarousel(storedFlag), [Next, Next, Next]) == Carousel(LastIndex, true, MainTabs)
  {
    var c0 := InitialCarousel(storedFlag);
    assert PressAll(c0, [Next, Next]) == PressAll(AfterNextSlide(c0), [Next]);
    assert PressAll(c0, [Next, Next, Next]) == PressAll(AfterNextSlide(c0), [Next, Next]);
    assert [Next, Next][1..] == [Next];
    assert [Next, Next, Next][1..] == [Next, Next];
  }

  /** Next then previous returns to the same slide, except from the last
      slide, where next finishes instead. */
  lemma PreviousUndoesNext(c: Carousel)
    requires 0 <= c.index < LastIndex
    ensures AfterPreviousSlide(AfterNextSlide(c)) == c
  {
  }

  /** The screen as a component: the slide index state, the storage flag,
      and the navigator's last `replace`. */
  class OnboardingScreen {
    var currentIndex: int
    var hasSeenOnboarding: bool
    var replacedWith: string

    function State(): Carousel
      reads this
    {
      Carousel(currentIndex, hasSeenOnboarding, replacedWith)
    }

    constructor (storedFlag: bool)
      ensures State() == InitialCarousel(storedFlag)
    {
      currentIndex := 0;
      hasSeenOnboarding := storedFlag;
      replacedWith := "";
    }

    method NavigateToLogin()
      modifies this
      ensures State() == Finish(old(State()))
    {
      hasSeenOnboarding := true;
      replacedWith := MainTabs;
    }

    method SkipOnboarding()
      modifies this
      ensures State() == Finish(old(State()))
    {
      hasSeenOnboarding := true;
      replacedWith := MainTabs;
    }

    method NextSlide()
      modifies this
      ensures State() == AfterNextSlide(old(State()))
    {
      if currentIndex < |Slides| - 1 {
        currentIndex := currentIndex + 1;
      } else {
        NavigateToLogin();
      }
    }

    method PreviousSlide()
      modifies this
      ensures State() == AfterPreviousSlide(old(State()))
    {
      if currentIndex > 0 {
        currentIndex := currentIndex - 1;
      }
    }

    /** `onboardingData[currentIndex]`, defined on every reachable state. */
    method CurrentSlide() returns (slide: Slide)
      requires CarouselInv(State())
      ensures slide == Slides[currentIndex] && slide.id == currentIndex + 1
    {
      slide := Slides[currentIndex];
    }
  }
}
