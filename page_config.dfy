/** `frontend/src/components/wizard/Step3PageConfig.tsx`: the third wizard step, where the
    author groups questions (by their index in the question list) into pages and edits the
    transition rules between pages. Every operation computes the new page or transition list
    from the current one; the React setters that receive it are not modelled. */
module PageConfigEditor {
  import opened Wrappers
  import opened Seqs
  import opened Text
  import opened Types

  // ---------------------------------------------------------------------------------------
  // Pages

  /** The title a new page gets: "Страница" and its number. */
  function PageTitle(n: int): string {
    "Страница " + IntToString(n)
  }

  /** `addPage` as written: the new page's id is the number of pages plus one. */
  function AddPage(pages: seq<PageConfig>): (r: seq<PageConfig>)
    ensures |r| == |pages| + 1 && r[..|pages|] == pages
    ensures r[|pages|].id == |pages| + 1 && r[|pages|].questionIds == []
    ensures r[|pages|].title == PageTitle(|pages| + 1)
  {
    pages + [PageConfig(|pages| + 1, PageTitle(|pages| + 1), [])]
  }

  /** The page ids, in order. */
  function PageIds(pages: seq<PageConfig>): (ids: seq<int>)
    ensures |ids| == |pages| && forall i :: 0 <= i < |pages| ==> ids[i] == pages[i].id
  {
    Map(pages, (p: PageConfig) => p.id)
  }

  /** After the first of two pages is removed, `addPage` gives the new page the id of the page
      that is left: two pages share id 2. */
  lemma AddPageReusesAnId()
    ensures var two := AddPage(AddPage([]));
            var left := RemovePage(two, [], 1).0;
            var again := AddPage(left);
            PageIds(two) == [1, 2] && PageIds(left) == [2] && PageIds(again) == [2, 2]
  {
    var two := AddPage(AddPage([]));
    assert PageIds(two) == [1, 2];
    var left := RemovePage(two, [], 1).0;
    assert two[0].id == 1 && two[1].id == 2;
    assert Filter(two, (p: PageConfig) => p.id != 1) == [two[1]];
    assert PageIds(left) == [2];
  }

  /** The largest page id, or 0 without pages. */
  function MaxId(pages: seq<PageConfig>): (m: int)
    ensures forall i :: 0 <= i < |pages| ==> pages[i].id <= m
    ensures pages != [] ==> exists i :: 0 <= i < |pages| && pages[i].id == m
    ensures pages == [] ==> m == 0
  {
    if pages == [] then 0
    else
      var rest := MaxId(pages[..|pages| - 1]);
      var last := pages[|pages| - 1].id;
      if |pages| == 1 || last > rest then last else rest
  }

  /** `addPage` with the id one above the largest: the page ids stay distinct. */
  function AddPageFresh(pages: seq<PageConfig>): (r: seq<PageConfig>)
    ensures |r| == |pages| + 1 && r[..|pages|] == pages
    ensures r[|pages|].questionIds == [] && r[|pages|].title == PageTitle(|pages| + 1)
    ensures r[|pages|].id !in PageIds(pages)
    ensures Distinct(PageIds(pages)) ==> Distinct(PageIds(r))
  {
    var n := PageConfig(MaxId(pages) + 1, PageTitle(|pages| + 1), []);
    assert PageIds(pages + [n]) == PageIds(pages) + [n.id];
    pages + [n]
  }

  /** `removePage`: with at most one page nothing changes; otherwise the pages with that id and
      the transitions from or to it are dropped, and everything else is kept in order. */
  function RemovePage(pages: seq<PageConfig>, transitions: seq<TransitionRule>, pageId: int)
    : (r: (seq<PageConfig>, seq<TransitionRule>))
    ensures |pages| <= 1 ==> r == (pages, transitions)
    ensures |pages| > 1 ==>
              && (forall p :: p in r.0 <==> p in pages && p.id != pageId)
              && (forall t :: t in r.1 <==> t in transitions && t.fromPage != pageId && t.toPage != pageId)
              && r.0 == Filter(pages, (p: PageConfig) => p.id != pageId)
              && r.1 == Filter(transitions, (t: TransitionRule) => t.fromPage != pageId && t.toPage != pageId)
  {
    if |pages| <= 1 then (pages, transitions)
    else
      (Filter(pages, (p: PageConfig) => p.id != pageId),
       Filter(transitions, (t: TransitionRule) => t.fromPage != pageId && t.toPage != pageId))
  }

  /** No two pages share an id. */
  predicate DistinctIds(pages: seq<PageConfig>) {
    forall i, j :: 0 <= i < j < |pages| ==> pages[i].id != pages[j].id
  }

  lemma DistinctIdsMeans(pages: seq<PageConfig>)
    ensures DistinctIds(pages) <==> Distinct(PageIds(pages))
  {
    var ids := PageIds(pages);
    assert forall i :: 0 <= i < |pages| ==> ids[i] == pages[i].id;
  }

  /** Filtering pages whose ids are distinct leaves ids that are distinct. */
  lemma {:induction false} FilterKeepsDistinctIds(pages: seq<PageConfig>, keep: PageConfig -> bool)
    requires DistinctIds(pages)
    ensures DistinctIds(Filter(pages, keep))
  {
    if pages != [] {
      var rest := pages[1..];
      FilterKeepsDistinctIds(rest, keep);
      var kept := Filter(rest, keep);
      if keep(pages[0]) {
        forall j | 0 <= j < |kept|
          ensures kept[j].id != pages[0].id
        {
          var m :| 0 <= m < |rest| && rest[m] == kept[j];
          assert pages[m + 1] == kept[j];
        }
        var r := [pages[0]] + kept;
        assert Filter(pages, keep) == r;
        forall i, j | 0 <= i < j < |r|
          ensures r[i].id != r[j].id
        {
          if i > 0 {
            assert r[i] == kept[i - 1] && r[j] == kept[j - 1];
          }
        }
      } else {
        assert Filter(pages, keep) == kept;
      }
    }
  }

  /** With distinct page ids, removing a page never leaves the survey without pages, and the
      ids stay distinct. */
  lemma RemovePageKeepsAPage(pages: seq<PageConfig>, transitions: seq<TransitionRule>, pageId: int)
    requires pages != [] && Distinct(PageIds(pages))
    ensures RemovePage(pages, transitions, pageId).0 != []
    ensures Distinct(PageIds(RemovePage(pages, transitions, pageId).0))
  {
    if |pages| > 1 {
      var keep := (p: PageConfig) => p.id != pageId;
      DistinctIdsMeans(pages);
      var k := if pages[0].id != pageId then 0 else 1;
      assert pages[k] in Filter(pages, keep);
      FilterKeepsDistinctIds(pages, keep);
      DistinctIdsMeans(Filter(pages, keep));
    }
  }

  /** `updatePageTitle`: the pages with that id get the title; nothing else changes. */
  function UpdatePageTitle(pages: seq<PageConfig>, pageId: int, title: string): (r: seq<PageConfig>)
    ensures |r| == |pages|
    ensures forall i :: 0 <= i < |pages| ==>
              && r[i].id == pages[i].id && r[i].questionIds == pages[i].questionIds
              && r[i].title == (if pages[i].id == pageId then title else pages[i].title)
  {
    Map(pages, (p: PageConfig) => if p.id == pageId then p.(title := title) else p)
  }

  /** Membership of one question index flipped: all its occurrences removed if present,
      appended otherwise. */
  function Toggle(ids: seq<int>, index: int): (r: seq<int>)
    ensures index in r <==> index !in ids
    ensures forall x :: x != index ==> (x in r <==> x in ids)
  {
    if index in ids then Filter(ids, (x: int) => x != index) else ids + [index]
  }

  /** Toggling an index that is not on a page twice gives the page back. */
  lemma ToggleTwiceRestores(ids: seq<int>, index: int)
    requires index !in ids
    ensures Toggle(Toggle(ids, index), index) == ids
  {
    FilterAppend(ids, [index], (x: int) => x != index);
    FilterAll(ids, (x: int) => x != index);
    assert Filter([index], (x: int) => x != index) == [];
  }

  /** `toggleQuestionInPage`: only the pages with that id change, and only in that index. */
  function ToggleQuestionInPage(pages: seq<PageConfig>, pageId: int, index: int): (r: seq<PageConfig>)
    ensures |r| == |pages|
    ensures forall i :: 0 <= i < |pages| && pages[i].id != pageId ==> r[i] == pages[i]
    ensures forall i :: 0 <= i < |pages| && pages[i].id == pageId ==>
              r[i] == pages[i].(questionIds := Toggle(pages[i].questionIds, index))
  {
    Map(pages, (p: PageConfig) => if p.id != pageId then p else p.(questionIds := Toggle(p.questionIds, index)))
  }

  /** Toggling an index twice on pages that do not hold it gives the pages back. */
  lemma ToggleQuestionTwiceRestores(pages: seq<PageConfig>, pageId: int, index: int)
    requires forall i :: 0 <= i < |pages| && pages[i].id == pageId ==> index !in pages[i].questionIds
    ensures ToggleQuestionInPage(ToggleQuestionInPage(pages, pageId, index), pageId, index) == pages
  {
    var once := ToggleQuestionInPage(pages, pageId, index);
    var twice := ToggleQuestionInPage(once, pageId, index);
    forall i | 0 <= i < |pages|
      ensures twice[i] == pages[i]
    {
      if pages[i].id == pageId {
        ToggleTwiceRestores(pages[i].questionIds, index);
      }
    }
  }

  /** `getQuestionPage`: the id of the first page holding the index, or `None`. */
  function QuestionPage(pages: seq<PageConfig>, index: int): (r: Option<int>)
    ensures r.None? <==> forall i :: 0 <= i < |pages| ==> index !in pages[i].questionIds
    ensures r.Some? ==> exists i :: 0 <= i < |pages| && index in pages[i].questionIds && pages[i].id == r.value
                          && forall j :: 0 <= j < i ==> index !in pages[j].questionIds
  {
    match FindIndex(pages, (p: PageConfig) => index in p.questionIds)
    case None => None
    case Some(i) => Some(pages[i].id)
  }

  /** The questions at the given indices, in that order; indices outside the list are skipped
      (`map(idx => questions[idx]).filter(Boolean)`). */
  function Pick(questions: seq<Question>, ids: seq<int>): (r: seq<Question>)
    ensures |r| <= |ids|
    ensures forall k :: 0 <= k < |r| ==> r[k] in questions
    ensures forall k :: 0 <= k < |ids| && 0 <= ids[k] < |questions| ==> questions[ids[k]] in r
    ensures var inRange := Filter(ids, (i: int) => 0 <= i < |questions|);
            |r| == |inRange| && forall k :: 0 <= k < |inRange| ==> r[k] == questions[inRange[k]]
  {
    if ids == [] then []
    else
      (if 0 <= ids[0] < |questions| then [questions[ids[0]]] else []) + Pick(questions, ids[1..])
  }

  /** With every index in range, each index gives exactly its question, in order. */
  lemma {:induction false} PickInRange(questions: seq<Question>, ids: seq<int>)
    requires forall k :: 0 <= k < |ids| ==> 0 <= ids[k] < |questions|
    ensures |Pick(questions, ids)| == |ids|
    ensures forall k :: 0 <= k < |ids| ==> Pick(questions, ids)[k] == questions[ids[k]]
  {
    if ids != [] {
      PickInRange(questions, ids[1..]);
    }
  }

  /** `getQuestionsForPage`: nothing for an unknown page, otherwise the questions of the first
      page with that id. */
  function QuestionsForPage(pages: seq<PageConfig>, questions: seq<Question>, pageId: int): (r: seq<Question>)
    ensures (forall i :: 0 <= i < |pages| ==> pages[i].id != pageId) ==> r == []
    ensures (exists i :: 0 <= i < |pages| && pages[i].id == pageId) ==>
              exists i :: 0 <= i < |pages| && pages[i].id == pageId && r == Pick(questions, pages[i].questionIds)
                          && forall j :: 0 <= j < i ==> pages[j].id != pageId
  {
    match FindIndex(pages, (p: PageConfig) => p.id == pageId)
    case None => []
    case Some(i) => Pick(questions, pages[i].questionIds)
  }

  /** Some page holds the question index. */
  predicate OnSomePage(pages: seq<PageConfig>, index: int) {
    exists i :: 0 <= i < |pages| && index in pages[i].questionIds
  }

  /** `allQuestionsAssigned`: finishing is enabled exactly when each of the first `n`
      question indices is on some page. */
  function AllQuestionsAssigned(pages: seq<PageConfig>, n: nat): (r: bool)
    ensures r <==> forall idx :: 0 <= idx < n ==> OnSomePage(pages, idx)
  {
    if n == 0 then true
    else
      assert QuestionPage(pages, n - 1).Some? <==> OnSomePage(pages, n - 1);
      AllQuestionsAssigned(pages, n - 1) && QuestionPage(pages, n - 1).Some?
  }

  // ---------------------------------------------------------------------------------------
  // Transitions

  /** JavaScript's `id || fallback` on a page id: 0 is falsy. */
  function OrDefault(id: Option<int>, fallback: int): (r: int)
    ensures fallback != 0 ==> r != 0
    ensures r == fallback || (id == Some(r) && r != 0)
  {
    if id.Some? && id.value != 0 then id.value else fallback
  }

  /** `addTransition`: an unconditional rule from the first page (1 by default) to the second
      (2 by default), identified by the clock reading; the old rules are kept. */
  function AddTransition(pages: seq<PageConfig>, transitions: seq<TransitionRule>, now: int): (r: seq<TransitionRule>)
    ensures |r| == |transitions| + 1 && r[..|transitions|] == transitions
    ensures var t := r[|transitions|];
            && t.id == "t" + IntToString(now) && t.condition.None?
            && t.fromPage == (if |pages| > 0 && pages[0].id != 0 then pages[0].id else 1)
            && t.toPage == (if |pages| > 1 && pages[1].id != 0 then pages[1].id else 2)
  {
    var first := if |pages| > 0 then Some(pages[0].id) else None;
    var second := if |pages| > 1 then Some(pages[1].id) else None;
    transitions + [TransitionRule("t" + IntToString(now), OrDefault(first, 1), OrDefault(second, 2), None)]
  }

  /** `removeTransition`: the rules with that id are dropped, the rest kept in order (the order
      is `Filter`'s, pinned down by `FilterAppend`; the ensures state membership). */
  function RemoveTransition(transitions: seq<TransitionRule>, id: string): (r: seq<TransitionRule>)
    ensures forall t :: t in r <==> t in transitions && t.id != id
    ensures |r| <= |transitions|
  {
    Filter(transitions, (t: TransitionRule) => t.id != id)
  }

  /** The keys an `updateTransition` call passes; an absent key keeps the rule's value. */
  datatype TransitionUpdate = TransitionUpdate(
    id: Option<string>, fromPage: Option<int>, toPage: Option<int>, condition: Option<Option<Condition>>)

  /** `{ ...t, ...updates }`. */
  function Merge(t: TransitionRule, u: TransitionUpdate): (r: TransitionRule)
    ensures r.id == u.id.GetOr(t.id) && r.fromPage == u.fromPage.GetOr(t.fromPage)
    ensures r.toPage == u.toPage.GetOr(t.toPage) && r.condition == u.condition.GetOr(t.condition)
  {
    TransitionRule(u.id.GetOr(t.id), u.fromPage.GetOr(t.fromPage), u.toPage.GetOr(t.toPage), u.condition.GetOr(t.condition))
  }

  /** `updateTransition`: the rules with that id take the updates; the others are unchanged. */
  function UpdateTransition(transitions: seq<TransitionRule>, id: string, u: TransitionUpdate): (r: seq<TransitionRule>)
    ensures |r| == |transitions|
    ensures forall i :: 0 <= i < |transitions| && transitions[i].id != id ==> r[i] == transitions[i]
    ensures forall i :: 0 <= i < |transitions| && transitions[i].id == id ==> r[i] == Merge(transitions[i], u)
  {
    Map(transitions, (t: TransitionRule) => if t.id == id then Merge(t, u) else t)
  }

  /** The keys an `updateTransitionCondition` call passes. */
  datatype ConditionUpdate = ConditionUpdate(
    questionId: Option<int>, operator: Option<Operator>, value: Option<ConditionValue>)

  /** The condition a rule ends up with: the update's keys, else the rule's condition, else the
      defaults (the first question's position or 0, `equals`, `''`). */
  function MergeCondition(t: TransitionRule, questions: seq<Question>, u: ConditionUpdate): (c: Condition)
    ensures c.questionId == u.questionId.GetOr(
              if t.condition.Some? then t.condition.value.questionId
              else if |questions| > 0 then questions[0].position else 0)
    ensures c.operator == u.operator.GetOr(if t.condition.Some? then t.condition.value.operator else Equals)
    ensures c.value == u.value.GetOr(if t.condition.Some? then t.condition.value.value else One(""))
  {
    var base :=
      if t.condition.Some? then t.condition.value
      else Condition(if |questions| > 0 then questions[0].position else 0, Equals, One(""));
    Condition(u.questionId.GetOr(base.questionId), u.operator.GetOr(base.operator), u.value.GetOr(base.value))
  }

  /** `updateTransitionCondition`: the rules with that id always end up with a condition;
      everything else is unchanged. */
  function UpdateTransitionCondition(transitions: seq<TransitionRule>, id: string, questions: seq<Question>, u: ConditionUpdate)
    : (r: seq<TransitionRule>)
    ensures |r| == |transitions|
    ensures forall i :: 0 <= i < |transitions| && transitions[i].id != id ==> r[i] == transitions[i]
    ensures forall i :: 0 <= i < |transitions| && transitions[i].id == id ==>
              r[i] == transitions[i].(condition := Some(MergeCondition(transitions[i], questions, u)))
  {
    Map(transitions, (t: TransitionRule) =>
      if t.id == id then t.(condition := Some(MergeCondition(t, questions, u))) else t)
  }
}
