/**
 * The rotating card on the hero section: it shows the projects one by one,
 * then the experiences, then the projects again, one step per timer tick.
 * Also the heading, the card title and the mobile-width rule.
 */
module AnimatedContent {
  import opened Common

  /** A card: title, optional description and role, and its bullet points. */
  datatype Feature = Feature(title: string, description: Option<string>, role: Option<string>, features: seq<string>)

  const PROJECTS: seq<Feature> := [
    Feature("Let Us Connect", Some("Networking & Collaboration Platform"), None,
            ["Full-stack Go/NextJS application", "Real-time notifications with Pusher", "Modern UI with NextUI and ShadCN"]),
    Feature("EasyLife", Some("E-Commerce marketplace connecting vendors and customers"), None,
            ["RESTful APIs with Django REST Framework", "Responsive React interface", "Seamless vendor-customer connections"]),
    Feature("GPTuessr", Some("Multiplayer Online Game with AI Integration"), None,
            ["DALL-E for real-time image generation", "ChatGPT integration for player assessment", "80.3% test coverage on SonarCloud"])
  ]

  const EXPERIENCES: seq<Feature> := [
    Feature("University of Zurich", None, Some("Research Assistant"),
            ["Deep Learning course TA", "PyTorch Conv2d Module extension", "U-net based stereo matching model"]),
    Feature("Earkick AI", None, Some("Machine Learning Engineer Intern"),
            ["Video-based emotion recognition", "Advanced feature engineering", "Audio-video data integration"])
  ]

  const MOBILE_MAX_WIDTH := 768

  /** The list on show. */
  function CurrentArray(showingProjects: bool): seq<Feature> {
    if showingProjects then PROJECTS else EXPERIENCES
  }

  // ------------------------------------------------------------ rotation

  /** Which list is on show and the index into it. */
  datatype View = View(showingProjects: bool, currentIndex: int)

  /** The length of the list on show, for lists of `projects` and `experiences` items. */
  function Count(showingProjects: bool, projects: nat, experiences: nat): nat {
    if showingProjects then projects else experiences
  }

  /** An index into the list on show. */
  predicate InRange(v: View, projects: nat, experiences: nat) {
    0 <= v.currentIndex < Count(v.showingProjects, projects, experiences)
  }

  /**
   * One timer tick: below the last index, advance within the same list; at
   * (or past) the last index, go back to 0 and switch lists.
   */
  function Step(v: View, projects: nat, experiences: nat): (w: View)
    ensures v.currentIndex < Count(v.showingProjects, projects, experiences) - 1 ==>
              w == View(v.showingProjects, v.currentIndex + 1)
    ensures v.currentIndex >= Count(v.showingProjects, projects, experiences) - 1 ==>
              w == View(!v.showingProjects, 0)
    ensures projects > 0 && experiences > 0 && v.currentIndex >= 0 ==> InRange(w, projects, experiences)
  {
    if v.currentIndex < Count(v.showingProjects, projects, experiences) - 1 then
      View(v.showingProjects, v.currentIndex + 1)
    else
      View(!v.showingProjects, 0)
  }

  /** `n` ticks in a row. */
  function Steps(v: View, n: nat, projects: nat, experiences: nat): View
    decreases n
  {
    if n == 0 then v else Steps(Step(v, projects, experiences), n - 1, projects, experiences)
  }

  /** Running `a` ticks and then `b` ticks is running `a + b` ticks. */
  lemma {:induction false} StepsAdd(v: View, a: nat, b: nat, projects: nat, experiences: nat)
    ensures Steps(v, a + b, projects, experiences) == Steps(Steps(v, a, projects, experiences), b, projects, experiences)
    decreases a
  {
    if a > 0 {
      StepsAdd(Step(v, projects, experiences), a - 1, b, projects, experiences);
    }
  }

  /** From any valid index, the ticks left in the current list lead to the other list's first item. */
  lemma {:induction false} RunToSwitch(v: View, projects: nat, experiences: nat)
    requires InRange(v, projects, experiences)
    ensures Steps(v, Count(v.showingProjects, projects, experiences) - v.currentIndex, projects, experiences)
            == View(!v.showingProjects, 0)
    decreases Count(v.showingProjects, projects, experiences) - v.currentIndex
  {
    var n := Count(v.showingProjects, projects, experiences);
    var w := Step(v, projects, experiences);
    if v.currentIndex == n - 1 {
      assert Steps(v, 1, projects, experiences) == Steps(w, 0, projects, experiences);
    } else {
      RunToSwitch(w, projects, experiences);
    }
  }

  /**
   * From the first project, `projects + experiences` ticks come back to the
   * first project: every item is shown once per round.
   */
  lemma CycleReturns(projects: nat, experiences: nat)
    requires projects > 0 && experiences > 0
    ensures Steps(View(true, 0), projects + experiences, projects, experiences) == View(true, 0)
  {
    RunToSwitch(View(true, 0), projects, experiences);
    RunToSwitch(View(false, 0), projects, experiences);
    StepsAdd(View(true, 0), projects, experiences, projects, experiences);
  }

  /** With three projects and two experiences, five ticks make a round. */
  lemma FiveTicksRound()
    ensures Steps(View(true, 0), |PROJECTS| + |EXPERIENCES|, |PROJECTS|, |EXPERIENCES|) == View(true, 0)
    ensures |PROJECTS| + |EXPERIENCES| == 5
  {
    CycleReturns(|PROJECTS|, |EXPERIENCES|);
  }

  // ------------------------------------------------------------ rendering

  /** The section heading. */
  function Heading(showingProjects: bool): (h: string)
    ensures h == "Featured Projects" <==> showingProjects
    ensures h == "Work Experience" <==> !showingProjects
  {
    if showingProjects then "Featured Projects" else "Work Experience"
  }

  /** The text of an optional field in a template literal: absent reads `undefined`. */
  function Interpolate(s: Option<string>): string {
    match s
    case Some(text) => text
    case None => "undefined"
  }

  /** The card title: a project's title alone, an experience's title and role. */
  function CardTitle(item: Feature, showingProjects: bool): (t: string)
    ensures showingProjects ==> t == item.title
    ensures !showingProjects ==> |t| >= |item.title| && t[..|item.title|] == item.title && t[|item.title|..] == " - " + Interpolate(item.role)
  {
    if showingProjects then item.title else item.title + " - " + Interpolate(item.role)
  }

  /** The mobile layout applies at a window width of 768 or less. */
  function IsMobile(width: int): (b: bool)
    ensures b <==> width <= MOBILE_MAX_WIDTH
  {
    width <= MOBILE_MAX_WIDTH
  }

  class Carousel {
    var showingProjects: bool
    var currentIndex: int
    var isMobile: bool

    /** The index is valid for the list on show. */
    ghost predicate Valid()
      reads this
    {
      InRange(View(showingProjects, currentIndex), |PROJECTS|, |EXPERIENCES|)
    }

    /** Starts on the first project, in the desktop layout. */
    constructor ()
      ensures Valid() && showingProjects && currentIndex == 0 && !isMobile
    {
      showingProjects := true;
      currentIndex := 0;
      isMobile := false;
    }

    /** The card on show; defined because the index is valid. */
    function CurrentItem(): (item: Feature)
      reads this
      requires Valid()
      ensures item in CurrentArray(showingProjects)
    {
      CurrentArray(showingProjects)[currentIndex]
    }

    /** The timer callback. */
    method Tick()
      requires Valid()
      modifies this`showingProjects, this`currentIndex
      ensures Valid()
      ensures View(showingProjects, currentIndex) == Step(old(View(showingProjects, currentIndex)), |PROJECTS|, |EXPERIENCES|)
    {
      var currentArray := CurrentArray(showingProjects);
      if currentIndex < |currentArray| - 1 {
        currentIndex := currentIndex + 1;
      } else {
        currentIndex := 0;
        showingProjects := !showingProjects;
      }
    }

    /** The resize listener. */
    method Resize(width: int)
      modifies this`isMobile
      ensures isMobile <==> width <= MOBILE_MAX_WIDTH
    {
      isMobile := IsMobile(width);
    }
  }
}
