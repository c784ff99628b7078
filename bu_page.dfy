/**
 * The coin-toss divination page. The user types the matter to ask about
 * (at most 100 UTF-16 code units) and submits it; the backend replies with an
 * id, normally six line strings, and a hexagram name. The user then reveals the lines one
 * shake at a time (or all at once), after which the page polls the backend
 * until the interpretation is ready. "Back" starts over.
 *
 * The backend replies and the timers are inputs here: `Submit` and `Poll`
 * take the reply as an argument, and each firing of a timer is one call of
 * `Poll` or `TickCarousel`.
 */
module Bu {
  import opened Wrappers
  import opened Text
  import opened HexagramDisplay

  /** The example questions the carousel cycles through under the input box. */
  const Examples: seq<string> := [
    "今天下午七点和朋友吃饭",
    "明天面试能否顺利通过",
    "这个项目能否按时完成",
    "最近的感情运势如何",
    "下个月的工作发展"
  ]

  /** The longest matter the input box accepts. */
  const MaxMatterLength: nat := 100
  /** From this length on the character counter is highlighted. */
  const NearLimitLength: nat := 80
  /** The number of lines in a hexagram. */
  const LineCount: nat := 6

  /** What the page shows once the interpretation has arrived. */
  datatype Result = Result(symbol: string, name: string, description: string, interpretation: string)

  /** The reply to "generate a hexagram for this matter": the backend's id, line
      strings and hexagram name, or a failed request. */
  datatype GenerateReply = Generated(id: string, lines: seq<string>, hexagram: string) | GenerateFailed

  /** The reply to one poll for the interpretation. */
  datatype PollReply = Ready(interpretation: string) | NotReady | PollFailed

  /** Which part of the page is on screen. */
  datatype Phase =
    | Asking                   // the input box
    | Shaking(drawn: nat)      // the shake buttons, `drawn` lines revealed so far
    | Interpreting(polling: bool)  // all lines revealed, waiting for the interpretation
    | Answered                 // the interpretation is shown

  /** The result built from a ready poll reply: the fixed symbol, the stored
      hexagram name, a description that opens with the name, and the
      interpretation as the backend sent it. */
  function ResultFor(name: string, interpretation: string): (r: Result)
    ensures r.name == name && r.interpretation == interpretation
    ensures r.symbol == "䷀"
    ensures |r.description| > |name| && r.description[..|name|] == name
  {
    Result("䷀", name, name + "卦代表...", interpretation)
  }

  /** The carousel's next index: one further, wrapping from the last example to the first. */
  function NextExample(i: int): (j: int)
    requires 0 <= i < |Examples|
    ensures 0 <= j < |Examples|
    ensures j == i + 1 || (i == |Examples| - 1 && j == 0)
  {
    (i + 1) % |Examples|
  }

  /** The carousel index after `k` ticks. */
  function Ticks(i: int, k: nat): (j: int)
    requires 0 <= i < |Examples|
    ensures 0 <= j < |Examples|
  {
    if k == 0 then i else NextExample(Ticks(i, k - 1))
  }

  /** After `k` ticks the carousel shows example `(i + k) mod 5`. */
  lemma {:induction false} TicksWrap(i: int, k: nat)
    requires 0 <= i < |Examples|
    ensures Ticks(i, k) == (i + k) % |Examples|
  {
    if k > 0 {
      TicksWrap(i, k - 1);
    }
  }

  /** Every example comes round again after five ticks, and each one in between
      is shown once. */
  lemma CarouselCycles(i: int)
    requires 0 <= i < |Examples|
    ensures Ticks(i, |Examples|) == i
    ensures forall k, l :: 0 <= k < l < |Examples| ==> Ticks(i, k) != Ticks(i, l)
  {
    TicksWrap(i, |Examples|);
    forall k, l | 0 <= k < l < |Examples| ensures Ticks(i, k) != Ticks(i, l) {
      TicksWrap(i, k);
      TicksWrap(i, l);
    }
  }

  /** The line a shake reveals when `k` lines are already out: the backend's
      `k`-th line, or "yang" when the backend sent fewer lines than that. */
  function LineAt(backend: seq<string>, k: nat): (line: string)
    ensures k < |backend| ==> line == backend[k]
    ensures k >= |backend| ==> Classify(line) == YangLine
  {
    YangRendersSolid();
    if k < |backend| then backend[k] else "yang"
  }

  /** The lines on screen after `n` single shakes. */
  function Drawn(backend: seq<string>, n: nat): (r: seq<string>)
    ensures |r| == n
    ensures forall i :: 0 <= i < n ==> r[i] == LineAt(backend, i)
  {
    if n == 0 then [] else Drawn(backend, n - 1) + [LineAt(backend, n - 1)]
  }

  /** One more shake appends the next line to those already drawn. */
  lemma DrawnStep(backend: seq<string>, n: nat)
    ensures Drawn(backend, n + 1) == Drawn(backend, n) + [LineAt(backend, n)]
  {
  }

  /** A later shake never redraws an earlier bar: the lines after `m` shakes
      are the first `m` of the lines after any `n >= m` shakes. */
  lemma {:induction false} DrawnExtends(backend: seq<string>, m: nat, n: nat)
    requires m <= n
    ensures Drawn(backend, m) == Drawn(backend, n)[..m]
    decreases n - m
  {
    if m < n {
      DrawnExtends(backend, m, n - 1);
      assert Drawn(backend, n)[..n - 1] == Drawn(backend, n - 1);
    }
  }

  /** While the backend has sent enough lines, the drawn lines are exactly its
      first ones: the "yang" fallback never appears. */
  lemma {:induction false} DrawnIsPrefix(backend: seq<string>, n: nat)
    requires n <= |backend|
    ensures Drawn(backend, n) == backend[..n]
  {
    if n > 0 {
      DrawnIsPrefix(backend, n - 1);
      assert backend[..n] == backend[..n - 1] + [backend[n - 1]];
    }
  }

  /** Six single shakes and one quick shake leave the same lines on screen
      exactly when the backend sent six lines. */
  lemma QuickShakeAgreesWithShaking(backend: seq<string>)
    ensures Drawn(backend, LineCount) == backend <==> |backend| == LineCount
  {
    var d := Drawn(backend, LineCount);
    if |backend| == LineCount {
      assert forall i :: 0 <= i < LineCount ==> d[i] == backend[i];
    }
  }

  /** After single shakes the `i`-th bar is the backend's `i`-th line, or a
      solid bar where the backend sent no line. */
  lemma DrawnRendering(backend: seq<string>, n: nat, i: nat)
    requires i < n
    ensures Render(Drawn(backend, n), None)[i] ==
            if i < |backend| then Classify(backend[i]) else YangLine
  {
    YangRendersSolid();
  }

  class BuPage {
    var matter: string
    var isSubmitted: bool
    var currentLine: int
    var lines: seq<string>
    var result: Option<Result>
    var isLoading: bool
    var currentExampleIndex: int
    var divinationId: string
    var backendLines: seq<string>
    var hexagramName: string
    var isPolling: bool

    /** What every handler keeps, whatever the screen shows. */
    ghost predicate Valid()
      reads this
    {
      && 0 <= currentLine <= LineCount
      && Utf16Length(matter) <= MaxMatterLength
      && 0 <= currentExampleIndex < |Examples|
      && !isLoading
    }

    /** Every field but `matter` and the carousel index at its initial value. */
    predicate Cleared()
      reads this
    {
      && !isSubmitted && currentLine == 0 && lines == [] && result == None
      && !isLoading && divinationId == "" && backendLines == [] && hexagramName == ""
      && !isPolling
    }

    /** The state the page starts in, the carousel index aside. */
    predicate IsInitial()
      reads this
    {
      matter == "" && Cleared()
    }

    /** What holds in every state reached through the controls the page shows. */
    ghost predicate Consistent()
      reads this
    {
      && Valid()
      && (!isSubmitted ==> Cleared())
      && (isSubmitted && currentLine < LineCount ==>
            lines == Drawn(backendLines, currentLine) && result == None && !isPolling)
      && (currentLine == LineCount ==>
            isSubmitted && (lines == Drawn(backendLines, LineCount) || lines == backendLines))
      && (result.Some? ==> !isPolling && result.value == ResultFor(hexagramName, result.value.interpretation))
    }

    function Phase(): Phase
      reads this
      requires Valid()
    {
      if !isSubmitted then Asking
      else if currentLine < LineCount then Shaking(currentLine)
      else if result.Some? then Answered
      else Interpreting(isPolling)
    }

    // The render guards.

    /** The character counter is highlighted. */
    predicate NearLimit()
      reads this
    {
      Utf16Length(matter) >= NearLimitLength
    }

    /** The send button is enabled. */
    predicate CanSubmit()
      reads this
    {
      Trim(matter) != []
    }

    predicate ShowsInputForm()
      reads this
    {
      !isSubmitted
    }

    predicate ShowsShakeButtons()
      reads this
    {
      isSubmitted && currentLine < LineCount
    }

    predicate ShowsLoading()
      reads this
    {
      isSubmitted && currentLine == LineCount && result == None
    }

    predicate ShowsResult()
      reads this
    {
      isSubmitted && result.Some?
    }

    /** The character counter, `n/100`: `matter.length`, in UTF-16 code units. */
    function CharCount(): (n: nat)
      reads this
      requires Valid()
      ensures |matter| <= n <= MaxMatterLength
      ensures n == |matter| <==> InBmp(matter)
    {
      Utf16LengthIsLengthIffBmp(matter);
      Utf16Length(matter)
    }

    /** The example the carousel shows. */
    function CurrentExample(): (e: string)
      reads this
      requires Valid()
      ensures e in Examples
    {
      Examples[currentExampleIndex]
    }

    /** The bars the hexagram component draws; the page passes no `currentLine`. */
    function RenderedLines(): seq<Glyph>
      reads this
    {
      Render(lines, None)
    }

    constructor ()
      ensures IsInitial() && currentExampleIndex == 0
      ensures Valid() && Consistent() && Phase() == Asking
    {
      matter := "";
      isSubmitted := false;
      currentLine := 0;
      lines := [];
      result := None;
      isLoading := false;
      currentExampleIndex := 0;
      divinationId := "";
      backendLines := [];
      hexagramName := "";
      isPolling := false;
    }

    /** `handleInput`: the edit is taken only if the new text, counted in
        UTF-16 code units, fits. */
    method Input(value: string)
      requires Valid()
      modifies this`matter
      ensures Valid()
      ensures matter == if Utf16Length(value) <= MaxMatterLength then value else old(matter)
      ensures old(Consistent()) ==> Consistent() && Phase() == old(Phase())
    {
      if Utf16Length(value) <= MaxMatterLength {
        matter := value;
      }
    }

    /** The effect of `handleSubmit` with the given backend reply. */
    twostate predicate SubmitEffect(reply: GenerateReply)
      reads this
    {
      && matter == old(matter) && currentLine == old(currentLine) && lines == old(lines)
      && result == old(result) && isLoading == old(isLoading)
      && currentExampleIndex == old(currentExampleIndex) && isPolling == old(isPolling)
      && if !IsBlank(old(matter)) && reply.Generated? then
           && divinationId == reply.id && backendLines == reply.lines
           && hexagramName == reply.hexagram && isSubmitted
         else
           && divinationId == old(divinationId) && backendLines == old(backendLines)
           && hexagramName == old(hexagramName) && isSubmitted == old(isSubmitted)
    }

    /** `handleSubmit`: a blank matter is ignored; on a failed request nothing
        changes; otherwise the backend's id, lines and name are stored and the
        page moves on to shaking. */
    method Submit(reply: GenerateReply)
      requires Valid()
      modifies this`divinationId, this`backendLines, this`hexagramName, this`isSubmitted
      ensures Valid()
      ensures SubmitEffect(reply)
      ensures old(Consistent() && ShowsInputForm()) ==>
                Consistent() && Phase() == if !IsBlank(old(matter)) && reply.Generated? then Shaking(0) else Asking
    {
      TrimEmptyIffBlank(matter);
      if Trim(matter) == [] {
        return;
      }
      match reply
      case Generated(id, backend, hexagram) =>
        divinationId := id;
        backendLines := backend;
        hexagramName := hexagram;
        isSubmitted := true;
      case GenerateFailed =>
    }

    /** `handleKeyPress`: Enter without Shift submits a non-blank matter; every
        other key leaves the page as it is. */
    method KeyPress(key: string, shiftKey: bool, reply: GenerateReply)
      requires Valid()
      modifies this`divinationId, this`backendLines, this`hexagramName, this`isSubmitted
      ensures Valid()
      ensures key == "Enter" && !shiftKey ==> SubmitEffect(reply)
      ensures !(key == "Enter" && !shiftKey) ==> unchanged(this)
      ensures old(Consistent() && ShowsInputForm()) ==>
                Consistent() &&
                Phase() == if key == "Enter" && !shiftKey && !IsBlank(old(matter)) && reply.Generated?
                           then Shaking(0) else Asking
    {
      if key == "Enter" && !shiftKey {
        TrimEmptyIffBlank(matter);
        if Trim(matter) != [] {
          Submit(reply);
        }
      }
    }

    /** `handleShake`: once six lines are out nothing happens; otherwise the
        next line is appended, the count goes up by one, and polling starts on
        the sixth line. */
    method Shake()
      requires Valid()
      modifies this`lines, this`currentLine, this`isPolling, this`isLoading
      ensures Valid()
      ensures old(currentLine) >= LineCount ==> unchanged(this)
      ensures old(currentLine) < LineCount ==>
                && lines == old(lines) + [LineAt(backendLines, old(currentLine))]
                && currentLine == old(currentLine) + 1
                && isPolling == (old(isPolling) || currentLine == LineCount)
      ensures old(Consistent() && ShowsShakeButtons()) ==>
                && Consistent()
                && Phase() == if currentLine == LineCount then Interpreting(true) else Shaking(currentLine)
    {
      if currentLine >= LineCount {
        return;
      }
      isLoading := true;
      var newLine := LineAt(backendLines, currentLine);
      DrawnStep(backendLines, currentLine);
      lines := lines + [newLine];
      var revealed := currentLine;
      currentLine := currentLine + 1;
      isLoading := false;
      if revealed + 1 >= LineCount {
        isPolling := true;
      }
    }

    /** `handleQuickShake`: all of the backend's lines at once, and polling starts. */
    method QuickShake()
      requires Valid()
      modifies this`lines, this`currentLine, this`isPolling, this`isLoading
      ensures Valid()
      ensures lines == backendLines && currentLine == LineCount && isPolling
      ensures old(Consistent() && ShowsShakeButtons()) ==> Consistent() && Phase() == Interpreting(true)
    {
      isLoading := true;
      lines := backendLines;
      currentLine := LineCount;
      isLoading := false;
      isPolling := true;
    }

    /** One firing of the poll timer, `pollResult`, with the backend's reply.
        Nothing happens without an id or while not polling. A ready reply
        shows the result and stops polling; a not-ready reply changes nothing;
        a failed request stops polling and shows no result. */
    method Poll(reply: PollReply)
      requires Valid()
      modifies this`result, this`isPolling
      ensures Valid()
      ensures old(divinationId == "" || !isPolling) ==> unchanged(this)
      ensures old(divinationId != "" && isPolling) ==>
                match reply
                case Ready(text) => result == Some(ResultFor(hexagramName, text)) && !isPolling
                case NotReady => unchanged(this)
                case PollFailed => result == old(result) && !isPolling
      ensures old(Consistent()) ==> Consistent()
      ensures old(Consistent() && Phase() == Interpreting(true)) && divinationId != "" ==>
                Phase() == match reply
                           case Ready(_) => Answered
                           case NotReady => Interpreting(true)
                           case PollFailed => Interpreting(false)
    {
      if divinationId == "" || !isPolling {
        return;
      }
      match reply
      case Ready(text) =>
        result := Some(ResultFor(hexagramName, text));
        isPolling := false;
      case NotReady =>
      case PollFailed =>
        isPolling := false;
    }

    /** `handleBack`: every field back to its initial value except the carousel's. */
    method Back()
      requires Valid()
      modifies this
      ensures IsInitial() && currentExampleIndex == old(currentExampleIndex)
      ensures Valid() && Consistent()
      ensures Phase() == Asking
    {
      matter, isSubmitted, currentLine, lines, result := "", false, 0, [], None;
      isLoading, divinationId, backendLines, hexagramName, isPolling := false, "", [], "", false;
      ClearedIsConsistent(this);
    }

    /** One firing of the carousel timer. */
    method TickCarousel()
      requires Valid()
      modifies this`currentExampleIndex
      ensures Valid()
      ensures currentExampleIndex == NextExample(old(currentExampleIndex))
      ensures old(Consistent()) ==> Consistent() && Phase() == old(Phase())
    {
      currentExampleIndex := (currentExampleIndex + 1) % |Examples|;
    }
  }

  /** A cleared page is consistent and shows the input box. */
  lemma ClearedIsConsistent(p: BuPage)
    requires p.Valid() && p.Cleared()
    ensures p.Consistent() && p.Phase() == Asking
  {
  }

  /** Exactly one part of the page is on screen, and it is the one the phase names. */
  lemma PanelsFollowPhase(p: BuPage)
    requires p.Consistent()
    ensures p.ShowsInputForm() <==> p.Phase() == Asking
    ensures p.ShowsShakeButtons() <==> p.Phase().Shaking?
    ensures p.ShowsLoading() <==> p.Phase().Interpreting?
    ensures p.ShowsResult() <==> p.Phase() == Answered
  {
  }

  /** The counter is highlighted exactly when it shows 80 to 100. */
  lemma NearLimitBand(p: BuPage)
    requires p.Valid()
    ensures p.NearLimit() <==> NearLimitLength <= p.CharCount() <= MaxMatterLength
  {
  }

  /** The send button is enabled exactly when the matter is not all whitespace. */
  lemma CanSubmitIffNotBlank(p: BuPage)
    ensures p.CanSubmit() <==> !IsBlank(p.matter)
  {
    TrimEmptyIffBlank(p.matter);
  }

  /** While shaking, the hexagram shows one bar per shake, each drawn from the
      backend's line at that position (solid where the backend sent none). */
  lemma ShakingShowsDrawnLines(p: BuPage, i: nat)
    requires p.Consistent() && p.ShowsShakeButtons()
    requires i < p.currentLine
    ensures |p.RenderedLines()| == p.currentLine
    ensures p.RenderedLines()[i] == if i < |p.backendLines| then Classify(p.backendLines[i]) else YangLine
  {
    DrawnRendering(p.backendLines, p.currentLine, i);
  }

  /** Polling goes on only while all six lines are out and no result is shown. */
  lemma PollingOnlyWhileInterpreting(p: BuPage)
    requires p.Consistent() && p.isPolling
    ensures p.isSubmitted && p.currentLine == LineCount && p.result == None
    ensures p.ShowsLoading()
  {
  }
}
