/** What the stages that call the model once per item of a list share:
    the part of the world such a loop changes, where the loop has got to,
    and the sum of the answers' token counts. */
module Runs {
  import opened Wrappers
  import opened Json
  import opened Py
  import StateStore
  import Llm
  import Base

  /** The part of the world a stage's loop changes: the store's state, the
      files, the requests sent, the client's last token count, and the
      stage's name, which decides the prompt and the state key. */
  datatype World = World(state: Option<StateStore.ProjectState>, files: map<string, string>,
                         requests: seq<Llm.Request>, lastCount: int, stageName: string)

  /** Where the loop has got to: the world, the results of the calls so
      far, and what was raised, if anything. */
  datatype Run = Run(world: World, answers: seq<Llm.LlmResult>, raised: Option<Error>)

  /** The stage's world now. */
  function WorldOf(s: Base.Stage): World
    reads s, s.state, s.state.fs, s.llm.client
  {
    World(s.state.state, s.state.fs.files, s.llm.client.requests, s.llm.client.lastTokenCount, s.stageName)
  }

  /** `update_progress(current, total)` in the world: the state and the
      state file change as the store's update of the stage's record does. */
  function Progress(w: World, key: string, stateFile: string, codec: Codec, current: int, total: int, now: string)
    : (World, Result<()>)
  {
    var (st, u) := Base.Updated(w.state, key, "in_progress", Base.ProgressExtra(current, total), now);
    (w.(state := st, files := Base.Saved(w.files, stateFile, codec, st, u)), u)
  }

  /** The texts of the answers. */
  function Contents(answers: seq<Llm.LlmResult>): (r: seq<string>)
    ensures |r| == |answers| && forall i :: 0 <= i < |answers| ==> r[i] == answers[i].content
  {
    seq(|answers|, i requires 0 <= i < |answers| => answers[i].content)
  }

  /** `total_tokens`: the sum of the answers' token counts. */
  function TokenSum(answers: seq<Llm.LlmResult>): int {
    if |answers| == 0 then 0 else TokenSum(answers[..|answers| - 1]) + answers[|answers| - 1].tokensUsed
  }

  /** One more answer: its text after the others, its count added. */
  lemma AnswerAdded(answers: seq<Llm.LlmResult>, a: Llm.LlmResult)
    ensures Contents(answers + [a]) == Contents(answers) + [a.content]
    ensures TokenSum(answers + [a]) == TokenSum(answers) + a.tokensUsed
  {
    assert (answers + [a])[..|answers|] == answers;
  }

  /** A prefix of a prefix is a prefix, and the element after it is the
      bigger prefix's. */
  lemma PrefixOfPrefix<T>(whole: seq<T>, mid: seq<T>, before: seq<T>)
    requires |before| < |mid| <= |whole| && whole[..|mid|] == mid && mid[..|before|] == before
    ensures whole[..|before|] == before && whole[|before|] == mid[|before|]
  {
    assert whole[..|before|] == whole[..|mid|][..|before|];
  }

  /** The sum over two runs of answers is the sum of their sums. */
  lemma {:induction false} TokenSumAppend(answers: seq<Llm.LlmResult>, more: seq<Llm.LlmResult>)
    ensures TokenSum(answers + more) == TokenSum(answers) + TokenSum(more)
    decreases |more|
  {
    if |more| > 0 {
      var init := more[..|more| - 1];
      assert (answers + more)[..|answers + more| - 1] == answers + init;
      assert (answers + more)[|answers + more| - 1] == more[|more| - 1];
      TokenSumAppend(answers, init);
    } else {
      assert answers + more == answers;
    }
  }
}
