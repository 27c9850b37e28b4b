/** One prompt at a time: the model loop as a producer of history (raychat/session.py). */
module Conversation {
  import opened Effects
  import opened Sequences
  import opened SessionRecords

  // ---------------------------------------------------------------- the grammar of a history

  /** `prompt (reply host_result)* reply`, all under one prompt id. */
  predicate IsTurn(turn: seq<Message>, id: int) {
    && |turn| >= 2 && |turn| % 2 == 0
    && forall i | 0 <= i < |turn| ::
         && ValidMessage(turn[i]) && turn[i].promptId == id
         && turn[i].kind == if i == 0 then Prompt else if i % 2 == 1 then Reply else HostResult
  }

  /** Whole turns only, with ids that increase and stay below `next`. */
  ghost predicate WellFormed(h: seq<Message>, next: int)
    decreases |h|
  {
    h == [] ||
    exists k, id | 0 <= k < |h| && id < next :: IsTurn(h[k..], id) && WellFormed(h[..k], id)
  }

  /** What may stand next to each other. */
  predicate Follows(a: Message, b: Message) {
    match b.kind
    case Prompt => a.kind == Reply && a.promptId < b.promptId
    case Reply => a.kind != Reply && a.promptId == b.promptId
    case HostResult => a.kind == Reply && a.promptId == b.promptId
  }

  predicate Fits(h: seq<Message>, i: nat)
    requires 0 < i < |h|
  {
    Follows(h[i - 1], h[i])
  }

  predicate Local(h: seq<Message>) {
    && (h != [] ==> h[0].kind == Prompt && h[|h| - 1].kind == Reply)
    && (forall i | 0 <= i < |h| :: ValidMessage(h[i]))
    && forall i | 0 < i < |h| :: Fits(h, i)
  }

  lemma {:induction false} IdsGrow(h: seq<Message>, i: nat, j: nat)
    requires Local(h) && i <= j < |h|
    ensures h[i].promptId <= h[j].promptId
    decreases j
  {
    if i < j {
      IdsGrow(h, i, j - 1);
      assert Fits(h, j);
    }
  }

  predicate Below(h: seq<Message>, next: int) {
    forall i | 0 <= i < |h| :: h[i].promptId < next
  }

  lemma JoinIsLocal(h: seq<Message>, turn: seq<Message>, id: int)
    requires Local(h) && Below(h, id) && IsTurn(turn, id)
    ensures Local(h + turn)
  {
    forall i | 0 < i < |h + turn|
      ensures Fits(h + turn, i)
    {
      JoinFits(h, turn, id, i);
    }
  }

  lemma JoinFits(h: seq<Message>, turn: seq<Message>, id: int, i: nat)
    requires Local(h) && Below(h, id) && IsTurn(turn, id) && 0 < i < |h + turn|
    ensures Fits(h + turn, i)
  {
    var before, after := (h + turn)[i - 1], (h + turn)[i];
    if i < |h| {
      assert Fits(h, i) && before == h[i - 1] && after == h[i];
    } else if i == |h| {
      assert before == h[i - 1] && after == turn[0];
    } else {
      assert before == turn[i - |h| - 1] && after == turn[i - |h|];
    }
  }

  lemma {:induction false} WellFormedIsLocal(h: seq<Message>, next: int)
    requires WellFormed(h, next)
    ensures Local(h) && Below(h, next)
    decreases |h|
  {
    if h != [] {
      var k, id :| 0 <= k < |h| && id < next && IsTurn(h[k..], id) && WellFormed(h[..k], id);
      WellFormedIsLocal(h[..k], id);
      JoinIsLocal(h[..k], h[k..], id);
      assert h == h[..k] + h[k..];
    }
  }

  lemma {:induction false} LocalIsWellFormed(h: seq<Message>, next: int)
    requires Local(h) && Below(h, next)
    ensures WellFormed(h, next)
    decreases |h|
  {
    if h != [] {
      var k := LastPrompt(h);
      LastTurn(h, k);
      var before := h[..k];
      forall i | 0 <= i < k
        ensures before[i].promptId < h[k].promptId
      {
        IdsGrow(h, i, k - 1);
        assert Fits(h, k);
      }
      LocalIsWellFormed(before, h[k].promptId);
      assert IsTurn(h[k..], h[k].promptId) && WellFormed(h[..k], h[k].promptId);
    }
  }

  lemma LastPrompt(h: seq<Message>) returns (k: nat)
    requires h != [] && h[0].kind == Prompt
    ensures k < |h| && h[k].kind == Prompt && forall i | k < i < |h| :: h[i].kind != Prompt
  {
    k := |h| - 1;
    while h[k].kind != Prompt
      invariant k < |h| && forall i | k < i < |h| :: h[i].kind != Prompt
      decreases k
    {
      k := k - 1;
    }
  }

  lemma LastTurn(h: seq<Message>, k: nat)
    requires Local(h) && k < |h| && h[k].kind == Prompt && forall i | k < i < |h| :: h[i].kind != Prompt
    ensures IsTurn(h[k..], h[k].promptId) && Local(h[..k])
  {
    for n := k to |h|
      invariant forall i | k < i < |h| && i <= n ::
        h[i].promptId == h[k].promptId && h[i].kind == if (i - k) % 2 == 1 then Reply else HostResult
    {
      if n + 1 < |h| { assert Fits(h, n + 1); }
    }
    if k > 0 { assert Fits(h, k); }
    forall i | 0 < i < k ensures Fits(h[..k], i) { assert Fits(h, i); }
  }

  /** The grammar of whole turns is exactly what neighbouring messages show. */
  lemma GrammarIsLocal(h: seq<Message>, next: int)
    ensures WellFormed(h, next) <==> Local(h) && Below(h, next)
  {
    if WellFormed(h, next) { WellFormedIsLocal(h, next); }
    if Local(h) && Below(h, next) { LocalIsWellFormed(h, next); }
  }

  lemma TurnExtends(h: seq<Message>, turn: seq<Message>, id: int)
    requires WellFormed(h, id) && IsTurn(turn, id)
    ensures WellFormed(h + turn, id + 1)
  {
    assert (h + turn)[|h|..] == turn && (h + turn)[..|h|] == h;
  }

  lemma LaterIsWellFormed(h: seq<Message>, id: int)
    requires WellFormed(h, id)
    ensures WellFormed(h, id + 1)
  {
    GrammarIsLocal(h, id);
    GrammarIsLocal(h, id + 1);
  }

  // ---------------------------------------------------------------- what the model and the host answer

  const MAX_REPLY_FAILURES := 3
  const MAX_PROSE_ASIDES := 3
  const CORE_REVIEW_STEPS := 20

  const RESULT_PREFIX := "HOST_RESULT: "
  const NO_TEXT := "(the provider returned no usable assistant text for this turn)"
  const ASIDE_NOTE := 
    "{\"ok\": true, \"note\": \"Narration noted; nothing was executed. " +
    "Continue now with the single JSON action itself.\"}"

  /** Results are their JSON text. */
  datatype Meaning =
    | Invalid(error: string)                                // not one valid action
    | Done(text: string)                                    // the completion, after review
    | Tool(result: string, completion: Option<string>)      // denied, blocked, failed or run; perhaps the end of the turn

  datatype Reply =
    | Unusable(error: string)                // a failure the model is told about
    | Broken                                 // any other provider error
    | Text(text: string, meaning: Meaning)

  type Script = seq<Reply>

  /** Replies without usable text at the end of the first `k`. */
  function Failures(script: Script, k: nat): nat
    requires k <= |script|
  {
    if k == 0 || !script[k - 1].Unusable? then 0 else Failures(script, k - 1) + 1
  }

  predicate Prose(reply: Reply) {
    reply.Text? && '{' !in reply.text
  }

  /** Asides granted since the last valid action among the first `k` replies. */
  function Asides(script: Script, k: nat): nat
    requires k <= |script|
  {
    if k == 0 then 0
    else
      var before, reply := Asides(script, k - 1), script[k - 1];
      if Prose(reply) && before < MAX_PROSE_ASIDES then before + 1
      else if reply.Text? && !reply.meaning.Invalid? then 0
      else before
  }

  predicate IsAside(script: Script, k: nat)
    requires k < |script|
  {
    Prose(script[k]) && Asides(script, k) < MAX_PROSE_ASIDES
  }

  /** The reply is a valid action that finishes the turn. */
  predicate Ends(script: Script, k: nat)
    requires k < |script|
  {
    && script[k].Text? && !IsAside(script, k)
    && (script[k].meaning.Done? || (script[k].meaning.Tool? && script[k].meaning.completion.Some?))
  }

  function Said(text: string, id: int): Message {
    Message(Assistant, text, Reply, id)
  }

  function Told(result: string, id: int): Message {
    Message(User, RESULT_PREFIX + result, HostResult, id)
  }

  /** What one reply leaves in the history. */
  function Exchange(script: Script, k: nat, id: int): seq<Message>
    requires k < |script|
  {
    match script[k]
    case Unusable(error) => [Said(NO_TEXT, id), Told(error, id)]
    case Broken => []
    case Text(text, meaning) =>
      if IsAside(script, k) then [Said(text, id), Told(ASIDE_NOTE, id)]
      else
        match meaning
        case Invalid(error) => [Said(text, id), Told(error, id)]
        case Done(reviewed) => [Said(reviewed, id)]
        case Tool(result, None) => [Said(text, id), Told(result, id)]
        case Tool(result, Some(completion)) => [Said(text, id), Told(result, id), Said(completion, id)]
  }

  function Exchanges(script: Script, k: nat, id: int): seq<Message>
    requires k <= |script|
  {
    if k == 0 then [] else Exchanges(script, k - 1, id) + Exchange(script, k - 1, id)
  }

  /** The reply neither ends the turn nor breaks it. */
  predicate Continues(script: Script, k: nat)
    requires k < |script|
  {
    !script[k].Broken? && !Ends(script, k) && Failures(script, k + 1) <= MAX_REPLY_FAILURES
  }

  predicate GoesOn(script: Script, n: nat)
    requires n <= |script|
  {
    forall k | 0 <= k < n :: Continues(script, k)
  }

  /** The step budget of a prompt; reviews of core updates have their own. */
  function Budget(maxSteps: Option<int>, reviewing: bool): Option<int> {
    if !reviewing then maxSteps
    else match maxSteps
         case None => Some(CORE_REVIEW_STEPS)
         case Some(n) => Some(if n < CORE_REVIEW_STEPS then n else CORE_REVIEW_STEPS)
  }

  /** The turn is over after `n` replies: by an action, or because the budget of a review is used up. */
  predicate Finished(script: Script, budget: Option<int>, review: Option<string>, n: nat)
    requires n <= |script|
  {
    if budget == Some(n) then review.Some? && GoesOn(script, n)
    else n < |script| && GoesOn(script, n) && Ends(script, n) && (budget.Some? ==> n < budget.value)
  }

  /** Nothing can finish the turn after `n` replies. */
  predicate Stuck(script: Script, budget: Option<int>, review: Option<string>, n: nat)
    requires n <= |script|
  {
    && GoesOn(script, n) && (budget.Some? ==> n <= budget.value)
    && (if budget == Some(n) then review == None
        else n == |script| || script[n].Broken? || Failures(script, n + 1) > MAX_REPLY_FAILURES)
  }

  function Turn(prompt: string, script: Script, budget: Option<int>, review: Option<string>, n: nat, id: int): seq<Message>
    requires n <= |script| && Finished(script, budget, review, n)
  {
    [Message(User, prompt, Prompt, id)] + Exchanges(script, n, id) +
    if budget == Some(n) then [Said(review.value, id)] else Exchange(script, n, id)
  }

  /** A turn is finished at one place only, and not where it is stuck. */
  lemma OneEnd(script: Script, budget: Option<int>, review: Option<string>, m: nat, n: nat)
    requires m <= |script| && n <= |script| && Finished(script, budget, review, m)
    requires Finished(script, budget, review, n) || Stuck(script, budget, review, n)
    ensures m == n && !Stuck(script, budget, review, n)
  {
    assert m < n ==> Continues(script, m);
    assert n < m ==> Continues(script, n);
  }

  predicate Paired(ms: seq<Message>, id: int) {
    && |ms| % 2 == 0
    && forall i | 0 <= i < |ms| ::
         ValidMessage(ms[i]) && ms[i].promptId == id && ms[i].kind == if i % 2 == 0 then Reply else HostResult
  }

  lemma PairedJoin(a: seq<Message>, b: seq<Message>, id: int)
    requires Paired(a, id) && Paired(b, id)
    ensures Paired(a + b, id)
  {
  }

  lemma GoingOnPairs(script: Script, k: nat, id: int)
    requires k < |script| && id >= 1 && !script[k].Broken? && !Ends(script, k)
    ensures Paired(Exchange(script, k, id), id) && |Exchange(script, k, id)| == 2
  {
  }

  lemma {:induction false} ExchangesPair(script: Script, n: nat, id: int)
    requires n <= |script| && id >= 1 && GoesOn(script, n)
    ensures Paired(Exchanges(script, n, id), id) && |Exchanges(script, n, id)| == 2 * n
  {
    if n > 0 {
      assert Continues(script, n - 1);
      ExchangesPair(script, n - 1, id);
      GoingOnPairs(script, n - 1, id);
      PairedJoin(Exchanges(script, n - 1, id), Exchange(script, n - 1, id), id);
    }
  }

  /** The last reply of a turn, after the result of a tool that finishes it. */
  lemma EndingCloses(script: Script, k: nat, id: int) returns (pair: seq<Message>, last: string)
    requires k < |script| && id >= 1 && Ends(script, k)
    ensures Exchange(script, k, id) == pair + [Said(last, id)] && Paired(pair, id) && |pair| <= 2
  {
    var meaning := script[k].meaning;
    pair := if meaning.Done? then [] else [Said(script[k].text, id), Told(meaning.result, id)];
    last := if meaning.Done? then meaning.text else meaning.completion.value;
  }

  lemma PairedIsTurn(prompt: string, pairs: seq<Message>, last: string, id: int)
    requires id >= 1 && Paired(pairs, id)
    ensures IsTurn([Message(User, prompt, Prompt, id)] + pairs + [Said(last, id)], id)
  {
  }

  /** Whatever the model answers, a finished turn has the shape of a turn and no more exchanges than its budget. */
  lemma FinishedIsTurn(prompt: string, script: Script, budget: Option<int>, review: Option<string>, n: nat, id: int)
    requires n <= |script| && id >= 1 && Finished(script, budget, review, n)
    ensures IsTurn(Turn(prompt, script, budget, review, n, id), id)
    ensures budget.Some? ==> |Turn(prompt, script, budget, review, n, id)| <= 2 + 2 * budget.value
  {
    var opening, pairs := [Message(User, prompt, Prompt, id)], Exchanges(script, n, id);
    ExchangesPair(script, n, id);
    if budget == Some(n) {
      PairedIsTurn(prompt, pairs, review.value, id);
    } else {
      var pair, last := EndingCloses(script, n, id);
      PairedJoin(pairs, pair, id);
      PairedIsTurn(prompt, pairs + pair, last, id);
      assert Turn(prompt, script, budget, review, n, id) == opening + (pairs + pair) + [Said(last, id)];
    }
  }

  // ---------------------------------------------------------------- what a turn says

  lemma ExchangeLength(script: Script, k: nat, id: int)
    requires k < |script| && Continues(script, k)
    ensures |Exchange(script, k, id)| == 2
  {
  }

  lemma {:induction false} ExchangesLength(script: Script, n: nat, id: int)
    requires n <= |script| && GoesOn(script, n)
    ensures |Exchanges(script, n, id)| == 2 * n
  {
    if n > 0 {
      assert Continues(script, n - 1);
      ExchangesLength(script, n - 1, id);
      ExchangeLength(script, n - 1, id);
    }
  }

  lemma {:induction false} ExchangeAt(script: Script, n: nat, k: nat, id: int)
    requires k < n <= |script| && GoesOn(script, n)
    ensures |Exchanges(script, n, id)| == 2 * n && |Exchange(script, k, id)| == 2
    ensures Exchanges(script, n, id)[2 * k] == Exchange(script, k, id)[0]
    ensures Exchanges(script, n, id)[2 * k + 1] == Exchange(script, k, id)[1]
  {
    assert Continues(script, k);
    ExchangesLength(script, n - 1, id);
    ExchangesLength(script, n, id);
    ExchangeLength(script, k, id);
    if k < n - 1 { ExchangeAt(script, n - 1, k, id); }
  }

  lemma TurnParts(prompt: string, script: Script, budget: Option<int>, review: Option<string>, n: nat, id: int)
    requires n <= |script| && Finished(script, budget, review, n)
    ensures var t := Turn(prompt, script, budget, review, n, id);
      && |t| > 2 * n + 1 && t[0] == Message(User, prompt, Prompt, id)
      && t[1..2 * n + 1] == Exchanges(script, n, id)
      && t[2 * n + 1..] == if budget == Some(n) then [Said(review.value, id)] else Exchange(script, n, id)
  {
    ExchangesLength(script, n, id);
  }

  /** A finished turn is silent about no reply before its last: it has the prompt, then for every such reply its own text,
    * and what the tool gave, what was wrong, or the note for narration. */
  lemma TurnSays(prompt: string, script: Script, budget: Option<int>, review: Option<string>, n: nat, id: int, k: nat)
    requires k < n <= |script| && Finished(script, budget, review, n)
    ensures var t := Turn(prompt, script, budget, review, n, id);
      && |t| > 2 * n + 1 && t[0] == Message(User, prompt, Prompt, id)
      && t[2 * k + 1] == Message(Assistant, if script[k].Text? then script[k].text else NO_TEXT, Reply, id)
      && t[2 * k + 2].role == User && t[2 * k + 2].kind == HostResult && t[2 * k + 2].promptId == id
      && match script[k]
         case Unusable(error) => t[2 * k + 2].content == RESULT_PREFIX + error
         case Broken => false
         case Text(_, meaning) =>
           if IsAside(script, k) then t[2 * k + 2].content == RESULT_PREFIX + ASIDE_NOTE
           else match meaning
                case Invalid(error) => t[2 * k + 2].content == RESULT_PREFIX + error
                case Done(_) => false
                case Tool(result, completion) => completion == None && t[2 * k + 2].content == RESULT_PREFIX + result
  {
    TurnParts(prompt, script, budget, review, n, id);
    ExchangeAt(script, n, k, id);
    assert Continues(script, k);
    var t, pair := Turn(prompt, script, budget, review, n, id), Exchange(script, k, id);
    assert t[2 * k + 1] == t[1..2 * n + 1][2 * k] == pair[0];
    assert t[2 * k + 2] == t[1..2 * n + 1][2 * k + 1] == pair[1];
  }

  /** It ends with the review that the step limit called for, with the reviewed completion, or with the reply, the result and
    * the completion of a tool. */
  lemma TurnConcludes(prompt: string, script: Script, budget: Option<int>, review: Option<string>, n: nat, id: int)
    requires n <= |script| && Finished(script, budget, review, n)
    ensures |Turn(prompt, script, budget, review, n, id)| > 2 * n + 1
    ensures var last := Turn(prompt, script, budget, review, n, id)[2 * n + 1..];
      if budget == Some(n) then review.Some? && last == [Message(Assistant, review.value, Reply, id)]
      else && script[n].Text? && !IsAside(script, n)
           && match script[n].meaning
              case Invalid(_) => false
              case Done(text) => last == [Message(Assistant, text, Reply, id)]
              case Tool(result, completion) =>
                && completion.Some?
                && last == [Message(Assistant, script[n].text, Reply, id),
                            Message(User, RESULT_PREFIX + result, HostResult, id),
                            Message(Assistant, completion.value, Reply, id)]
  {
    TurnParts(prompt, script, budget, review, n, id);
  }

  /** A valid action among the replies. */
  predicate IsAction(script: Script, j: nat)
    requires j < |script|
  {
    script[j].Text? && !IsAside(script, j) && !script[j].meaning.Invalid?
  }

  /** Asides at these places in order, and no action since the first of them. */
  ghost predicate Narrated(script: Script, k: nat, places: seq<nat>)
    requires k <= |script|
  {
    && (forall i | 0 <= i < |places| :: places[i] < k && IsAside(script, places[i]))
    && (forall i, j | 0 <= i < j < |places| :: places[i] < places[j])
    && (places != [] ==> forall j | places[0] <= j < k :: !IsAction(script, j))
  }

  /** One reply more: an action clears them, an aside adds itself, anything else leaves them. */
  lemma NarratedStep(script: Script, k: nat, other: seq<nat>)
    requires k < |script| && Narrated(script, k + 1, other) && other != []
    ensures !IsAction(script, k)
    ensures var front, last := other[..|other| - 1], other[|other| - 1];
      if last == k then IsAside(script, k) && Narrated(script, k, front) else Narrated(script, k, other)
  {
    var front, last := other[..|other| - 1], other[|other| - 1];
    assert forall i | 0 <= i < |other| :: other[i] <= last;
  }

  /** The asides that count are some since the last action, */
  lemma {:induction false} AsidesFound(script: Script, k: nat) returns (places: seq<nat>)
    requires k <= |script|
    ensures Narrated(script, k, places) && |places| == Asides(script, k) <= MAX_PROSE_ASIDES
  {
    places := [];
    if k > 0 && !IsAction(script, k - 1) {
      places := AsidesFound(script, k - 1);
      if IsAside(script, k - 1) { places := places + [k - 1]; }
    }
  }

  /** and there are no more of those. */
  lemma {:induction false} AsidesBound(script: Script, k: nat, places: seq<nat>)
    requires k <= |script| && Narrated(script, k, places)
    ensures |places| <= Asides(script, k)
    decreases k
  {
    if places != [] {
      assert places[0] < k;
      NarratedStep(script, k - 1, places);
      var last := |places| - 1;
      if places[last] == k - 1 {
        AsidesBound(script, k - 1, places[..last]);
      } else {
        AsidesBound(script, k - 1, places);
      }
    }
  }

  /** Narration is let pass exactly if fewer than three asides were let pass since the last valid action. */
  lemma AsideExactly(script: Script, k: nat)
    requires k < |script|
    ensures IsAside(script, k) <==>
            && script[k].Text? && '{' !in script[k].text
            && !exists a: nat, b: nat, c: nat :: Narrated(script, k, [a, b, c])
  {
    var places := AsidesFound(script, k);
    if Asides(script, k) == MAX_PROSE_ASIDES {
      assert places == [places[0], places[1], places[2]];
    }
    if a: nat, b: nat, c: nat :| Narrated(script, k, [a, b, c]) { AsidesBound(script, k, [a, b, c]); }
  }

  /** A review of a core update has at most twenty steps, and never more than it was given. */
  lemma BudgetExactly(maxSteps: Option<int>, reviewing: bool)
    ensures !reviewing ==> Budget(maxSteps, reviewing) == maxSteps
    ensures reviewing ==>
              && Budget(maxSteps, reviewing).Some? && Budget(maxSteps, reviewing).value <= 20
              && (maxSteps.Some? ==> Budget(maxSteps, reviewing).value <= maxSteps.value)
              && Budget(maxSteps, reviewing) in {Some(20), maxSteps}
  {
  }

  /** The loop gives up exactly at the fourth failure in a row. */
  lemma {:induction false} FailuresExactly(script: Script, k: nat, m: nat)
    requires k <= |script|
    ensures Failures(script, k) >= m <==> m <= k && forall i | k - m <= i < k :: script[i].Unusable?
  {
    if k > 0 && m > 0 { FailuresExactly(script, k - 1, m - 1); }
  }

  /** The model is told about a failure at most three times in a row. */
  lemma {:induction false} FailuresAreBounded(script: Script, n: nat, k: nat)
    requires n <= |script| && GoesOn(script, n) && k + MAX_REPLY_FAILURES < n
    ensures exists i | k <= i <= k + MAX_REPLY_FAILURES :: !script[i].Unusable?
  {
    assert Continues(script, k + MAX_REPLY_FAILURES);
    if forall i | k <= i <= k + MAX_REPLY_FAILURES :: script[i].Unusable? {
      FailuresAddUp(script, k, MAX_REPLY_FAILURES + 1);
      assert false;
    }
  }

  lemma {:induction false} FailuresAddUp(script: Script, k: nat, m: nat)
    requires k + m <= |script| && forall i | k <= i < k + m :: script[i].Unusable?
    ensures Failures(script, k + m) >= m
  {
    if m > 0 { FailuresAddUp(script, k, m - 1); }
  }

  // ---------------------------------------------------------------- the loop

  predicate Blank(prompt: string) {
    forall i | 0 <= i < |prompt| :: IsSpace(prompt[i] as int)
  }

  predicate IsSpace(c: int) {
    9 <= c <= 13 || 28 <= c <= 32 || c in {0x85, 0xA0, 0x1680, 0x2028, 0x2029, 0x202F, 0x205F, 0x3000} || 0x2000 <= c <= 0x200A
  }

  /** The first `n` replies have gone on, and left their exchanges. */
  predicate Progress(script: Script, id: int, n: nat, failures: nat, asides: nat, start: seq<Message>, now: seq<Message>) {
    && n <= |script| && GoesOn(script, n) && failures == Failures(script, n) && asides == Asides(script, n)
    && now == start + Exchanges(script, n, id)
  }

  lemma ProgressOn(script: Script, id: int, n: nat, start: seq<Message>, now: seq<Message>)
    requires n < |script| && Continues(script, n) && Progress(script, id, n, Failures(script, n), Asides(script, n), start, now)
    ensures Progress(script, id, n + 1, Failures(script, n + 1), Asides(script, n + 1), start, now + Exchange(script, n, id))
  {
    Regroup(start, Exchanges(script, n, id), Exchange(script, n, id));
  }

  datatype Outcome = Returned | Raised | Refused

  /** One call of `send`, the replies it gets, and how many calls out of it succeed before one raises. */
  datatype Request =
    Request(prompt: string, reviewing: bool, maxSteps: Option<int>, script: Script, review: Option<string>, calls: nat)

  predicate IsTurnAs(r: Request, turn: seq<Message>, used: nat, id: int) {
    && used <= |r.script| && Finished(r.script, Budget(r.maxSteps, r.reviewing), r.review, used)
    && turn == Turn(r.prompt, r.script, Budget(r.maxSteps, r.reviewing), r.review, used, id)
  }

  ghost predicate IsTurnOf(r: Request, turn: seq<Message>) {
    exists used: nat, id: int :: IsTurnAs(r, turn, used, id)
  }

  lemma TurnIsOf(r: Request, turn: seq<Message>, used: nat, id: int)
    requires IsTurnAs(r, turn, used, id)
    ensures IsTurnOf(r, turn)
  {
  }

  function Flat(turns: seq<seq<Message>>): seq<Message> {
    if turns == [] then [] else Flat(turns[..|turns| - 1]) + turns[|turns| - 1]
  }

  lemma FlatMore(start: seq<Message>, turns: seq<seq<Message>>, turn: seq<Message>)
    ensures start + Flat(turns) + turn == start + Flat(turns + [turn])
  {
    assert (turns + [turn])[..|turns|] == turns;
    Regroup(start, Flat(turns), turn);
  }

  predicate PromptsIncrease(h: seq<Message>) {
    forall i, j | 0 <= i < j < |h| && h[i].kind == Prompt && h[j].kind == Prompt :: h[i].promptId < h[j].promptId
  }

  lemma LocalIncreases(h: seq<Message>)
    requires Local(h)
    ensures PromptsIncrease(h)
  {
    forall i, j | 0 <= i < j < |h| && h[i].kind == Prompt && h[j].kind == Prompt
      ensures h[i].promptId < h[j].promptId
    {
      IdsGrow(h, i, j - 1);
      assert Fits(h, j);
    }
  }

  class Conversation {
    var history: seq<Message>
    var nextPromptId: int
    var sending: bool
    var turnOpen: bool
    var undecided: bool
    /** How many more calls into callbacks, hooks, providers and storage succeed. */
    var fuse: nat
    var interrupted: bool

    ghost predicate Valid()
      reads this
    {
      nextPromptId >= 1 && (AtRest() ==> WellFormed(history, nextPromptId) && !undecided)
    }

    predicate AtRest()
      reads this
    {
      !sending && !turnOpen
    }

    method Point() returns (ok: bool)
      modifies `fuse, `interrupted
      ensures ok ==> interrupted == old(interrupted)
      ensures !ok ==> interrupted
      ensures if old(fuse) > 0 then ok && fuse == old(fuse) - 1 else !ok && fuse == 0
    {
      ok := fuse > 0;
      if ok { fuse := fuse - 1; } else { interrupted := true; }
    }

    method Add(message: Message) returns (ok: bool)
      modifies `history, `fuse, `interrupted
      ensures history == old(history) + [message]
      ensures ok ==> interrupted == old(interrupted)
      ensures !ok ==> interrupted
      ensures if old(fuse) > 0 then ok && fuse == old(fuse) - 1 else !ok && fuse == 0
    {
      history := history + [message];
      ok := Point();
    }

    /** Two messages for one reply; either may be the last before an exception. */
    method AddPair(reply: Message, result: Message) returns (ok: bool)
      modifies `history, `fuse, `interrupted
      ensures ok ==> history == old(history) + [reply, result] && interrupted == old(interrupted)
      ensures !ok ==> interrupted
      ensures if old(fuse) >= 3 then ok && fuse == old(fuse) - 3 else !ok && fuse == 0
    {
      ok := Add(reply);
      if ok { ok := Point(); }
      if ok { ok := Add(result); }
    }

    method StartPrompt(prompt: string) returns (ok: bool)
      modifies this
      ensures ok ==> history == old(history) + [Message(User, prompt, Prompt, old(nextPromptId))]
      ensures ok ==> nextPromptId == old(nextPromptId) + 1 && turnOpen && interrupted == old(interrupted)
      ensures nextPromptId in {old(nextPromptId), old(nextPromptId) + 1}
      ensures !ok ==> interrupted
      ensures undecided == old(undecided) && sending == old(sending)
      ensures if old(fuse) >= 4 then ok && fuse == old(fuse) - 4 else !ok && fuse == 0
    {
      var id := nextPromptId;
      ok := Point();
      if !ok { return; }
      ok := Add(Message(User, prompt, Prompt, id));
      if !ok { return; }
      ok := Point();
      if !ok { return; }
      nextPromptId := nextPromptId + 1;
      turnOpen := true;
      ok := Point();
    }

    /** One model turn: records the exchange, and says whether it ended the prompt. */
    method Perform(script: Script, k: nat, failures: nat, asides: nat, id: int)
      returns (ok: bool, over: bool, failures': nat, asides': nat)
      requires k < |script| && failures == Failures(script, k) && asides == Asides(script, k) && !interrupted
      modifies `history, `fuse, `interrupted
      ensures ok ==>
                && !script[k].Broken? && Failures(script, k + 1) <= MAX_REPLY_FAILURES
                && history == old(history) + Exchange(script, k, id) && over == Ends(script, k)
                && failures' == Failures(script, k + 1) && !interrupted
                && (!over ==> asides' == Asides(script, k + 1))
      ensures ok ==>
                match script[k]
                case Unusable(error) =>
                  history == old(history) + [Message(Assistant, NO_TEXT, Reply, id),
                                             Message(User, RESULT_PREFIX + error, HostResult, id)]
                case Broken => false
                case Text(text, meaning) =>
                  if '{' !in text && asides < 3 then
                    history == old(history) + [Message(Assistant, text, Reply, id),
                                               Message(User, RESULT_PREFIX + ASIDE_NOTE, HostResult, id)]
                  else
                    match meaning
                    case Invalid(error) =>
                      history == old(history) + [Message(Assistant, text, Reply, id),
                                                 Message(User, RESULT_PREFIX + error, HostResult, id)]
                    case Done(reviewed) => history == old(history) + [Message(Assistant, reviewed, Reply, id)]
                    case Tool(result, completion) =>
                      history == old(history) + [Message(Assistant, text, Reply, id),
                                                 Message(User, RESULT_PREFIX + result, HostResult, id)]
                                 + if completion.Some? then [Message(Assistant, completion.value, Reply, id)] else []
      ensures !ok && !interrupted ==> script[k].Broken? || Failures(script, k + 1) > MAX_REPLY_FAILURES
      ensures old(fuse) >= 5 ==> fuse >= old(fuse) - 5 && !interrupted
    {
      over, failures', asides' := false, 0, asides;
      ok := Point();
      if !ok { return; }
      match script[k]
      case Broken => ok := false;
      case Unusable(error) =>
        failures' := failures + 1;
        if failures' > MAX_REPLY_FAILURES {
          ok := false;
        } else {
          ok := AddPair(Said(NO_TEXT, id), Told(error, id));
        }
      case Text(text, meaning) =>
        if '{' !in text && asides < MAX_PROSE_ASIDES {
          asides' := asides + 1;
          ok := AddPair(Said(text, id), Told(ASIDE_NOTE, id));
        } else {
          match meaning
          case Invalid(error) => ok := AddPair(Said(text, id), Told(error, id));
          case Done(reviewed) =>
            ok := Add(Said(reviewed, id));
            over := true;
          case Tool(result, completion) =>
            asides' := 0;
            ok := AddPair(Said(text, id), Told(result, id));
            if ok && completion.Some? {
              ok := Add(Said(completion.value, id));
              over := true;
            }
        }
    }

    /** Runs one prompt to its completion, its review limit, or the first exception. */
    method Converse(prompt: string, script: Script, budget: Option<int>, review: Option<string>)
      returns (ok: bool, ghost used: nat)
      requires nextPromptId >= 1 && undecided && !interrupted && (budget.Some? ==> budget.value >= 1)
      modifies this
      ensures used <= |script| && sending == old(sending)
      ensures nextPromptId in {old(nextPromptId), old(nextPromptId) + 1}
      ensures undecided ==> !ok
      ensures !undecided ==>
                && Finished(script, budget, review, used) && nextPromptId == old(nextPromptId) + 1 && !turnOpen
                && history == old(history) + Turn(prompt, script, budget, review, used, old(nextPromptId))
      ensures undecided && !interrupted ==> Stuck(script, budget, review, used)
      ensures !undecided && !interrupted ==> ok
      ensures old(fuse) >= 6 * |script| + 7 ==> !interrupted
    {
      ghost var start := history;
      used := 0;
      var id := nextPromptId;
      ok := StartPrompt(prompt);
      if !ok { return; }
      ghost var opening := [Message(User, prompt, Prompt, id)];
      var over;
      ok, over, used := ModelTurns(script, budget, id);
      if !ok { return; }
      if !over {
        if review == None { ok := false; return; }
        ok := Add(Said(review.value, id));
        if !ok { return; }
      }
      assert Finished(script, budget, review, used);
      ghost var middle, last := Exchanges(script, used, id), if over then Exchange(script, used, id) else [Said(review.value, id)];
      Regroup(start, opening, middle);
      Regroup(start, opening + middle, last);
      ok := Complete();
    }

    /** Lets the model act until a reply ends the turn or the budget is used up. */
    method ModelTurns(script: Script, budget: Option<int>, id: int) returns (ok: bool, over: bool, ghost used: nat)
      requires !interrupted && (budget.Some? ==> budget.value >= 1)
      modifies `history, `fuse, `interrupted
      ensures used <= |script| && (budget.Some? ==> used <= budget.value) && GoesOn(script, used)
      ensures ok && over ==>
                && !interrupted && budget != Some(used) && used < |script| && Ends(script, used)
                && history == old(history) + Exchanges(script, used, id) + Exchange(script, used, id)
      ensures ok && !over ==>
                !interrupted && budget == Some(used) && history == old(history) + Exchanges(script, used, id)
      ensures !ok && !interrupted ==>
                && budget != Some(used)
                && (used == |script| || script[used].Broken? || Failures(script, used + 1) > MAX_REPLY_FAILURES)
      ensures old(fuse) >= 6 * |script| ==> !interrupted && fuse >= old(fuse) - 6 * |script|
    {
      used, ok, over := 0, true, false;
      var k, failures, asides := 0, 0, 0;
      while budget == None || k < budget.value
        invariant ok && !over && k == used && !interrupted && (budget.Some? ==> k <= budget.value)
        invariant Progress(script, id, k, failures, asides, old(history), history)
        invariant old(fuse) >= 6 * k ==> fuse >= old(fuse) - 6 * k
        decreases |script| - k
      {
        ghost var before := history;
        if k == |script| { ok := false; return; }
        ok, over, failures, asides := Perform(script, k, failures, asides, id);
        if !ok || over { return; }
        ProgressOn(script, id, k, old(history), before);
        k := k + 1;
        used := k;
        if budget == None || k < budget.value {
          ok := Point();
          if !ok { return; }
        }
      }
    }

    /** The commit decides the turn; what is announced afterwards cannot undo it. */
    method Complete() returns (ok: bool)
      requires undecided
      modifies `undecided, `turnOpen, `fuse, `interrupted
      ensures undecided ==> !ok && interrupted
      ensures !undecided ==> !turnOpen
      ensures old(fuse) >= 2 ==> ok
      ensures ok ==> interrupted == old(interrupted)
      ensures !ok ==> interrupted
    {
      ok := Point();
      if !ok { return; }
      undecided, turnOpen := false, false;
      ok := Point();
    }

    /** One prompt adds one whole turn or nothing, with or without an exception; `calls` of the calls out of it succeed. */
    method Send(prompt: string, reviewing: bool, maxSteps: Option<int>, script: Script, review: Option<string>, calls: nat)
      returns (outcome: Outcome, ghost used: nat)
      requires Valid()
      modifies this
      ensures Valid() && used <= |script|
      ensures nextPromptId in {old(nextPromptId), old(nextPromptId) + 1}
      ensures var budget := Budget(maxSteps, reviewing);
        && (outcome.Refused? <==> Blank(prompt) || (maxSteps.Some? && maxSteps.value < 1) || !old(AtRest()))
        && (outcome.Refused? ==> history == old(history) && nextPromptId == old(nextPromptId) && AtRest() == old(AtRest()))
        && (!outcome.Refused? ==> AtRest())
        && (outcome.Returned? ==> history != old(history))
        && (history != old(history) ==>
              && Finished(script, budget, review, used)
              && history == old(history) + Turn(prompt, script, budget, review, used, old(nextPromptId))
              && nextPromptId == old(nextPromptId) + 1)
        && (outcome.Raised? && !interrupted ==> history == old(history) && Stuck(script, budget, review, used))
        && (!outcome.Refused? && calls >= 6 * |script| + 7 ==> !interrupted)
    {
      used := 0;
      if Blank(prompt) || (maxSteps.Some? && maxSteps.value < 1) || !AtRest() { return Outcome.Refused, 0; }
      var start := history;
      sending, undecided, fuse, interrupted := true, true, calls, false;
      var ok;
      ok, used := Converse(prompt, script, Budget(maxSteps, reviewing), review);
      if undecided {
        history := start;
        undecided, turnOpen := false, false;
        if nextPromptId == old(nextPromptId) + 1 { LaterIsWellFormed(start, old(nextPromptId)); }
      } else {
        FinishedIsTurn(prompt, script, Budget(maxSteps, reviewing), review, used, old(nextPromptId));
        TurnExtends(start, Turn(prompt, script, Budget(maxSteps, reviewing), review, used, old(nextPromptId)), old(nextPromptId));
      }
      sending := false;
      outcome := if ok then Outcome.Returned else Outcome.Raised;
    }

    /** One of several prompts, and the turn it adds. */
    method SendOne(r: Request) returns (outcome: Outcome, ghost turn: seq<Message>)
      requires Valid() && AtRest()
      modifies this
      ensures Valid() && AtRest() && history == old(history) + turn && (turn == [] || IsTurnOf(r, turn))
      ensures outcome.Returned? ==> turn != []
      ensures nextPromptId in {old(nextPromptId), old(nextPromptId) + 1}
    {
      ghost var id := nextPromptId;
      ghost var used;
      outcome, used := Send(r.prompt, r.reviewing, r.maxSteps, r.script, r.review, r.calls);
      turn := if history == old(history) then [] else Turn(r.prompt, r.script, Budget(r.maxSteps, r.reviewing), r.review, used, id);
      if turn != [] { TurnIsOf(r, turn, used, id); }
    }

    /** Prompts one after the other, each with its own replies and failures: the history is the old one and a whole turn for
      * every prompt that did not come to nothing, in order, under increasing prompt ids. */
    method SendAll(requests: seq<Request>) returns (outcomes: seq<Outcome>, ghost turns: seq<seq<Message>>)
      requires Valid() && AtRest()
      modifies this
      ensures Valid() && AtRest() && WellFormed(history, nextPromptId) && PromptsIncrease(history)
      ensures |outcomes| == |turns| == |requests| && history == old(history) + Flat(turns)
      ensures forall i | 0 <= i < |requests| :: turns[i] == [] || IsTurnOf(requests[i], turns[i])
      ensures forall i | 0 <= i < |requests| :: outcomes[i].Returned? ==> turns[i] != []
      ensures old(nextPromptId) <= nextPromptId <= old(nextPromptId) + |requests|
    {
      outcomes, turns := [], [];
      for i := 0 to |requests|
        invariant Valid() && AtRest() && |outcomes| == |turns| == i && history == old(history) + Flat(turns)
        invariant forall j | 0 <= j < i :: turns[j] == [] || IsTurnOf(requests[j], turns[j])
        invariant forall j | 0 <= j < i :: outcomes[j].Returned? ==> turns[j] != []
        invariant old(nextPromptId) <= nextPromptId <= old(nextPromptId) + i
      {
        var outcome;
        ghost var turn;
        outcome, turn := SendOne(requests[i]);
        FlatMore(old(history), turns, turn);
        outcomes, turns := outcomes + [outcome], turns + [turn];
      }
      GrammarIsLocal(history, nextPromptId);
      LocalIncreases(history);
    }
  }
}
