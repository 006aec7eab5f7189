/**
 * The page's wizard state (app.js): the step indicators, the five
 * screens, and the session id and training results that the event
 * handlers record and the step indicators are gated on. Network replies
 * are parameters of the handlers.
 */
module Wizard {
  import opened Common

  /** The two classes setActiveStep manages on a step element. */
  datatype StepMark = Plain | Active | Completed

  datatype Screen = Welcome | Loading | Results | Financial | Recommendations

  /** Position of a screen in the list showScreen walks. */
  function ScreenIndex(s: Screen): (i: nat)
    ensures i < 5
  {
    match s
    case Welcome => 0
    case Loading => 1
    case Results => 2
    case Financial => 3
    case Recommendations => 4
  }

  function ScreenAt(i: nat): (s: Screen)
    requires i < 5
    ensures ScreenIndex(s) == i
  {
    [Welcome, Loading, Results, Financial, Recommendations][i]
  }

  /** `screenMap[screenId]`. */
  function ScreenNamed(id: string): Option<Screen>
  {
    if id == "welcome" then Some(Welcome)
    else if id == "loading" then Some(Loading)
    else if id == "results" then Some(Results)
    else if id == "financial" then Some(Financial)
    else if id == "recommendations" then Some(Recommendations)
    else None
  }

  /** The mark setActiveStep(n) leaves on the step numbered k (from 1). */
  function MarkFor(k: int, n: int): StepMark
  {
    if k < n then Completed else if k == n then Active else Plain
  }

  /** The marks of `count` steps after setActiveStep(n). */
  function Marks(count: nat, n: int): seq<StepMark>
  {
    seq(count, i requires 0 <= i < count => MarkFor(i + 1, n))
  }

  function CountMarks(marks: seq<StepMark>, m: StepMark): nat
  {
    if marks == [] then 0
    else CountMarks(marks[..|marks| - 1], m) + (if marks[|marks| - 1] == m then 1 else 0)
  }

  lemma MarksGrow(count: nat, n: int)
    requires count > 0
    ensures Marks(count, n) == Marks(count - 1, n) + [MarkFor(count, n)]
  {
  }

  /** Exactly one step is active when n names a step, none otherwise. */
  lemma {:induction false} ActiveCount(count: nat, n: int)
    ensures CountMarks(Marks(count, n), Active) == if 1 <= n <= count then 1 else 0
  {
    if count > 0 {
      MarksGrow(count, n);
      ActiveCount(count - 1, n);
      assert Marks(count, n)[..count - 1] == Marks(count - 1, n);
    }
  }

  /** The steps before n are completed: n - 1 of them, within the number of steps. */
  lemma {:induction false} CompletedCount(count: nat, n: int)
    ensures CountMarks(Marks(count, n), Completed) == if n <= 1 then 0 else Min(n - 1, count)
  {
    if count > 0 {
      MarksGrow(count, n);
      CompletedCount(count - 1, n);
      assert Marks(count, n)[..count - 1] == Marks(count - 1, n);
    }
  }

  /** JavaScript truthiness of the session id: neither null nor the empty string. */
  predicate Truthy(id: Option<string>)
  {
    id.Some? && id.value != ""
  }

  /** `file.name.endsWith('.csv')`, case-sensitive. */
  predicate IsCsvName(name: string)
  {
    |name| >= 4 && name[|name| - 4..] == ".csv"
  }

  lemma CsvNames(name: string)
    ensures IsCsvName(name) <==> exists stem :: name == stem + ".csv"
  {
    if IsCsvName(name) {
      assert name == name[..|name| - 4] + ".csv";
    }
    if exists stem :: name == stem + ".csv" {
      var stem :| name == stem + ".csv";
      assert name[|name| - 4..] == ".csv";
    }
  }

  /** What the upload request returned: a failure, or the summary's `session_id` (maybe absent). */
  datatype UploadReply = UploadFailed | Uploaded(sessionId: Option<string>)

  /**
   * What the training request returned: a failure, or results that the
   * synchronous renderers (displayModelStatus, displayResults,
   * displayFinancialAnalysis) did or did not display without throwing.
   * displayRecommendations is `async` and is called without `await`, so a
   * throw inside it rejects its promise and never reaches the handler:
   * it does not affect `rendered`.
   */
  datatype TrainReply = TrainFailed | Trained(rendered: bool)

  class Page {
    var steps: array<StepMark>
    /** hidden[ScreenIndex(s)]: screen s carries the `hidden` class. */
    var hidden: array<bool>
    var sessionId: Option<string>
    /** `trainingResults` is not null. */
    var hasResults: bool

    ghost predicate Valid()
      reads this
    {
      hidden.Length == 5
    }

    /** The screens without the `hidden` class. */
    ghost function Visible(): set<Screen>
      reads this, hidden
      requires Valid()
    {
      set i | 0 <= i < 5 && !hidden[i] :: ScreenAt(i)
    }

    /** The page as loaded: no session, no results, the welcome screen shown, no step marked. */
    constructor (stepCount: nat)
      ensures Valid() && fresh(steps) && fresh(hidden)
      ensures steps[..] == Marks(stepCount, 0)
      ensures Visible() == {Welcome}
      ensures sessionId == None && !hasResults
    {
      steps := new StepMark[stepCount](_ => Plain);
      hidden := new bool[5](i => i != 0);
      sessionId := None;
      hasResults := false;
      new;
      assert Visible() == {Welcome} by {
        assert ScreenAt(0) in Visible();
      }
    }

    /** setActiveStep: the steps before n become completed, step n active, the rest plain. */
    method SetActiveStep(n: int)
      requires Valid()
      modifies steps
      ensures steps[..] == Marks(steps.Length, n)
    {
      for i := 0 to steps.Length
        invariant forall j :: 0 <= j < i ==> steps[j] == MarkFor(j + 1, n)
      {
        var stepNum := i + 1;
        steps[i] := Plain;
        if stepNum < n {
          steps[i] := Completed;
        } else if stepNum == n {
          steps[i] := Active;
        }
      }
    }

    /** showScreen: hides every screen, then reveals the one named, if any. */
    method ShowScreen(id: string)
      requires Valid()
      modifies hidden
      ensures forall i :: 0 <= i < 5 ==> hidden[i] == (ScreenNamed(id) != Some(ScreenAt(i)))
      ensures ScreenNamed(id).Some? ==> Visible() == {ScreenNamed(id).value}
      ensures ScreenNamed(id).None? ==> Visible() == {}
    {
      for i := 0 to 5
        invariant forall j :: 0 <= j < i ==> hidden[j]
      {
        hidden[i] := true;
      }
      var target := ScreenNamed(id);
      if target.Some? {
        hidden[ScreenIndex(target.value)] := false;
        assert ScreenAt(ScreenIndex(target.value)) in Visible();
      }
    }

    /** The inline buttons: `setActiveStep(n); showScreen(id)`. */
    method GoTo(n: int, id: string)
      requires Valid()
      modifies steps, hidden
      ensures steps[..] == Marks(steps.Length, n)
      ensures forall i :: 0 <= i < 5 ==> hidden[i] == (ScreenNamed(id) != Some(ScreenAt(i)))
    {
      SetActiveStep(n);
      ShowScreen(id);
    }

    /**
     * The click handler of the step element at `index`: step 1 always
     * navigates, step 2 only re-marks and needs a session, steps 3 to 5
     * need training results; any other click changes nothing.
     */
    method ClickStep(index: nat)
      requires Valid() && index < steps.Length
      modifies steps, hidden
      ensures var stepNum := index + 1;
        var navigates := stepNum == 1 || (stepNum == 2 && Truthy(sessionId)) || (3 <= stepNum <= 5 && hasResults);
        && (navigates ==> steps[..] == Marks(steps.Length, stepNum))
        && (!navigates ==> steps[..] == old(steps[..]))
        && (stepNum == 2 || !navigates ==> hidden[..] == old(hidden[..]))
        && (stepNum == 1 ==> Visible() == {Welcome})
        && (stepNum == 3 && hasResults ==> Visible() == {Results})
        && (stepNum == 4 && hasResults ==> Visible() == {Financial})
        && (stepNum == 5 && hasResults ==> Visible() == {Recommendations})
    {
      var stepNum := index + 1;
      if stepNum == 1 {
        ShowScreen("welcome");
        SetActiveStep(1);
      } else if stepNum == 2 && Truthy(sessionId) {
        SetActiveStep(2);
      } else if stepNum == 3 && hasResults {
        ShowScreen("results");
        SetActiveStep(3);
      } else if stepNum == 4 && hasResults {
        ShowScreen("financial");
        SetActiveStep(4);
      } else if stepNum == 5 && hasResults {
        ShowScreen("recommendations");
        SetActiveStep(5);
      }
    }

    /**
     * handleFileUpload: a name without the `.csv` suffix is refused and
     * nothing changes; otherwise step 1 is marked, and whatever the reply,
     * the page returns to the welcome screen, recording the session id of
     * a successful reply.
     */
    method HandleFileUpload(name: string, reply: UploadReply)
      requires Valid()
      modifies this, steps, hidden
      ensures Valid() && steps == old(steps) && hidden == old(hidden) && hasResults == old(hasResults)
      ensures !IsCsvName(name) ==> steps[..] == old(steps[..]) && hidden[..] == old(hidden[..]) && sessionId == old(sessionId)
      ensures IsCsvName(name) ==> steps[..] == Marks(steps.Length, 1) && Visible() == {Welcome}
      ensures IsCsvName(name) && reply.Uploaded? ==> sessionId == reply.sessionId
      ensures reply.UploadFailed? ==> sessionId == old(sessionId)
    {
      if !IsCsvName(name) {
        return;
      }
      ShowScreen("loading");
      SetActiveStep(1);
      if reply.Uploaded? {
        sessionId := reply.sessionId;
      }
      ShowScreen("welcome");
    }

    /**
     * The train button: without a session nothing changes. Otherwise step
     * 2 is marked; results that were displayed move the page to step 3 and
     * the results screen. A failed request, or results the renderers could
     * not display, lands on the welcome screen with step 2 still active;
     * in the second case the results are nevertheless kept.
     */
    method HandleTrainClick(reply: TrainReply)
      requires Valid()
      modifies this, steps, hidden
      ensures Valid() && steps == old(steps) && hidden == old(hidden) && sessionId == old(sessionId)
      ensures !Truthy(sessionId) ==> steps[..] == old(steps[..]) && hidden[..] == old(hidden[..]) && hasResults == old(hasResults)
      ensures Truthy(sessionId) && reply == Trained(true) ==>
        hasResults && steps[..] == Marks(steps.Length, 3) && Visible() == {Results}
      ensures Truthy(sessionId) && reply == Trained(false) ==>
        hasResults && steps[..] == Marks(steps.Length, 2) && Visible() == {Welcome}
      ensures Truthy(sessionId) && reply.TrainFailed? ==>
        hasResults == old(hasResults) && steps[..] == Marks(steps.Length, 2) && Visible() == {Welcome}
    {
      if !Truthy(sessionId) {
        return;
      }
      ShowScreen("loading");
      SetActiveStep(2);
      if reply.Trained? {
        hasResults := true;
        if reply.rendered {
          SetActiveStep(3);
          ShowScreen("results");
          return;
        }
      }
      ShowScreen("welcome");
    }
  }

  /** Once trained, steps 3 to 5 navigate from any state. */
  method TrainedPageNavigates(p: Page, index: nat)
    requires p.Valid() && p.hasResults && 2 <= index < p.steps.Length && index < 5
    modifies p.steps, p.hidden
    ensures CountMarks(p.steps[..], Active) == 1
  {
    p.ClickStep(index);
    ActiveCount(p.steps.Length, index + 1);
  }
}
