/** Idea generation (src/App.js, `generateIdeas`): sample three categories,
    fetch one idea per category from the configured service, and fall back to
    a fixed template on any per-category failure. The network is an oracle:
    `outcomes[k]` is what the request for the `k`-th sampled category gave. */
module Fetcher {
  import opened Options
  import opened Seqs
  import opened Categories
  import Sampler

  /** A displayed, unsaved idea. */
  datatype Idea = Idea(category: Category, name: string, description: string)

  /** What one request for a category produced. */
  datatype FetchOutcome =
    | NotOk(status: int)
      // the response arrived with `response.ok` false; `status` is that
      // non-2xx HTTP status, kept only for the log message
    | Thrown
      // `fetch` or `response.json()` threw (network failure, unparsable body)
    | Payload(name: Option<string>, description: Option<string>)
      // a 2xx response whose JSON body had these fields (None: absent or null)

  /** The response passed every check: 2xx, and both fields truthy. */
  predicate Succeeded(outcome: FetchOutcome)
  {
    outcome.Payload? && Truthy(outcome.name) && Truthy(outcome.description)
  }

  /** The placeholder used when a category's request fails. */
  function Fallback(category: Category): Idea
  {
    Idea(category, Name(category) + " App",
         "A creative application in the " + Name(category) + " category.")
  }

  /** The idea produced for one category from its request's outcome: the
      fetched pair when it passed the checks, the fallback otherwise. Either
      way it carries the category and a non-empty name and description. */
  function IdeaFor(category: Category, outcome: FetchOutcome): (r: Idea)
    ensures r.category == category
    ensures r.name != "" && r.description != ""
  {
    if Succeeded(outcome) then Idea(category, outcome.name.value, outcome.description.value)
    else Fallback(category)
  }

  /** The branches of one request: a non-2xx status, an exception, or a body
      with a missing or empty field each give exactly the fallback; a body with
      both fields present and non-empty gives exactly that pair. */
  lemma IdeaForOutcome(category: Category, status: int, name: Option<string>, description: Option<string>)
    ensures IdeaFor(category, NotOk(status)) == Fallback(category)
    ensures IdeaFor(category, Thrown) == Fallback(category)
    ensures !Truthy(name) || !Truthy(description) ==>
              IdeaFor(category, Payload(name, description)) == Fallback(category)
    ensures Truthy(name) && Truthy(description) ==>
              IdeaFor(category, Payload(name, description)) == Idea(category, name.value, description.value)
  {
  }

  /** The ideas produced and the slugs requested, in order. */
  datatype Batch = Batch(ideas: seq<Idea>, requested: seq<string>)

  /** The per-category loop: a category without a slug is skipped (no request,
      no idea); every other one issues a request and yields one idea. */
  function BuildBatch(selected: seq<Category>, outcomes: seq<FetchOutcome>): (r: Batch)
    requires |outcomes| == |selected|
    ensures |r.ideas| == |r.requested| <= |selected|
    ensures forall k :: 0 <= k < |r.ideas| ==> r.ideas[k].category in selected
    decreases |selected|
  {
    if selected == [] then Batch([], [])
    else
      var rest := BuildBatch(selected[1..], outcomes[1..]);
      var slug := Categories.ApiSlug(selected[0]);
      if !Truthy(slug) then rest
      else Batch([IdeaFor(selected[0], outcomes[0])] + rest.ideas, [slug.value] + rest.requested)
  }

  /** When every category has a slug, the batch holds exactly one idea per
      category, in sampling order, built from that category's own outcome, and
      one request per category carrying its slug. */
  lemma {:induction false} BatchOnePerCategory(selected: seq<Category>, outcomes: seq<FetchOutcome>)
    requires |outcomes| == |selected|
    requires forall c :: c in selected ==> Truthy(Categories.ApiSlug(c))
    ensures |BuildBatch(selected, outcomes).ideas| == |selected|
    ensures forall k :: 0 <= k < |selected| ==>
              (&& BuildBatch(selected, outcomes).ideas[k] == IdeaFor(selected[k], outcomes[k])
               && BuildBatch(selected, outcomes).requested[k] == ApiSlug(selected[k]).value)
    decreases |selected|
  {
    if selected != [] {
      assert selected[0] in selected;
      forall c | c in selected[1..] ensures Truthy(Categories.ApiSlug(c)) {
        assert c in selected;
      }
      BatchOnePerCategory(selected[1..], outcomes[1..]);
    }
  }

  /** The batch built from any valid sample of three: one idea and one request
      per sampled category, in order. */
  lemma SampledBatch(pool: seq<Category>, picks: seq<nat>, outcomes: seq<FetchOutcome>)
    requires |picks| == SampleSize
    requires Sampler.ValidPicks(|pool|, picks)
    requires |outcomes| == SampleSize
    ensures var selected := Sampler.DrawAndRemove(pool, picks).selected;
      && |BuildBatch(selected, outcomes).ideas| == 3
      && (forall k :: 0 <= k < 3 ==>
            (&& BuildBatch(selected, outcomes).ideas[k] == IdeaFor(selected[k], outcomes[k])
             && BuildBatch(selected, outcomes).requested[k] == ApiSlug(selected[k]).value))
  {
    var selected := Sampler.DrawAndRemove(pool, picks).selected;
    BatchOnePerCategory(selected, outcomes);
  }

  /** The message set when the service URL is not configured. */
  const MissingUrlMessage: string :=
    "API URL not found. Please set REACT_APP_API_URL in your environment variables."

  /** The state the page shows once a generation has finished. */
  datatype View = View(ideas: seq<Idea>, loading: bool, error: string)

  /** A finished generation: the view and the slugs that were requested. */
  datatype Run = Run(view: View, requested: seq<string>)

  /** One whole generation. It starts by clearing the ideas and the error and
      setting the loading flag. Without a (truthy) service URL nothing is
      sampled or requested, no ideas are shown and the error is the
      configuration message.
      Otherwise the `k`-th sampled category yields the `k`-th idea, built from
      its own outcome, and the `k`-th request carries its slug; no error is
      set. Loading always ends false. */
  function Generate(apiUrl: Option<string>, picks: seq<nat>, outcomes: seq<FetchOutcome>): (r: Run)
    requires |picks| == Categories.SampleSize
    requires Sampler.ValidPicks(|Categories.All|, picks)
    requires |outcomes| == Categories.SampleSize
    ensures !r.view.loading
    ensures r.view.error == "" <==> Truthy(apiUrl)
    ensures !Truthy(apiUrl) ==>
              r.view.ideas == [] && r.requested == [] && r.view.error == MissingUrlMessage
    ensures Truthy(apiUrl) ==>
              var selected := Sampler.DrawAndRemove(Categories.All, picks).selected;
              && |r.view.ideas| == 3
              && |r.requested| == 3
              && (forall k :: 0 <= k < 3 ==>
                    (&& r.view.ideas[k] == IdeaFor(selected[k], outcomes[k])
                     && r.requested[k] == ApiSlug(selected[k]).value))
  {
    if !Truthy(apiUrl) then
      Run(View([], false, MissingUrlMessage), [])
    else
      var selected := Sampler.DrawAndRemove(Categories.All, picks).selected;
      SampledBatch(Categories.All, picks, outcomes);
      var batch := BuildBatch(selected, outcomes);
      Run(View(batch.ideas, false, ""), batch.requested)
  }

  /** Ideas built from a draw over a list without repeats carry different
      categories, all from the list. */
  lemma SampledCategoriesDistinct(pool: seq<Category>, picks: seq<nat>, outcomes: seq<FetchOutcome>)
    requires Sampler.ValidPicks(|pool|, picks)
    requires |outcomes| == |picks|
    requires Distinct(pool)
    ensures var ideas := BuildBatch(Sampler.DrawAndRemove(pool, picks).selected, outcomes).ideas;
      && (forall i :: 0 <= i < |ideas| ==> ideas[i].category in pool)
      && (forall i, j :: 0 <= i < j < |ideas| ==> ideas[i].category != ideas[j].category)
  {
    var selected := Sampler.DrawAndRemove(pool, picks).selected;
    Sampler.DrawPartitions(pool, picks);
    BatchOnePerCategory(selected, outcomes);
  }

  /** A successful generation shows three different categories. */
  lemma GeneratedCategoriesDistinct(apiUrl: Option<string>, picks: seq<nat>, outcomes: seq<FetchOutcome>)
    requires |picks| == SampleSize
    requires Sampler.ValidPicks(|All|, picks)
    requires |outcomes| == SampleSize
    requires Truthy(apiUrl)
    ensures var ideas := Generate(apiUrl, picks, outcomes).view.ideas;
      forall i, j :: 0 <= i < j < |ideas| ==> ideas[i].category != ideas[j].category
  {
    CategoriesDistinct();
    SampledCategoriesDistinct(All, picks, outcomes);
    assert Generate(apiUrl, picks, outcomes).view.ideas
      == BuildBatch(Sampler.DrawAndRemove(All, picks).selected, outcomes).ideas;
  }

  /** Unfolding step for the worked run below: with a configured URL,
      `Generate`'s else-branch shows the batch built from the sample. */
  lemma GenerateShowsSampledBatch(apiUrl: Option<string>, picks: seq<nat>, outcomes: seq<FetchOutcome>)
    requires |picks| == SampleSize
    requires Sampler.ValidPicks(|All|, picks)
    requires |outcomes| == SampleSize
    requires Truthy(apiUrl)
    ensures var batch := BuildBatch(Sampler.DrawAndRemove(All, picks).selected, outcomes);
      Generate(apiUrl, picks, outcomes) == Run(View(batch.ideas, false, ""), batch.requested)
  {
  }

  /** Drawing indices 1, 9 and 11 picks "Audio & Music", "Retro Web" and
      "Accessibility". */
  lemma ScenarioSample()
    ensures Sampler.DrawAndRemove(All, [1, 9, 11]).selected == [AudioMusic, RetroWeb, Accessibility]
  {
    var p0 := RemoveAt(All, 1);
    var p1 := RemoveAt(p0, 9);
    assert p0[9] == RetroWeb;
    assert p1[11] == Accessibility;
    assert Sampler.DrawAndRemove(p0, [9, 11]).selected == [RetroWeb, Accessibility];
  }

  /** The batch for the worked run below. */
  lemma ScenarioBatch(outcomes: seq<FetchOutcome>, name: string, description: string)
    requires name != "" && description != ""
    requires outcomes == [Payload(Some(name), Some(description)), Thrown, Payload(None, None)]
    ensures BuildBatch([AudioMusic, RetroWeb, Accessibility], outcomes)
            == Batch([Idea(AudioMusic, name, description), Fallback(RetroWeb), Fallback(Accessibility)],
                     ["audio-music", "retro-web", "accessibility"])
  {
  }

  /** A worked run: "Audio & Music" answers, "Retro Web" throws, and
      "Accessibility" returns a body without the expected fields. All three
      ideas are produced, the last two from the fallback template. */
  lemma MixedOutcomesScenario(apiUrl: Option<string>, picks: seq<nat>, outcomes: seq<FetchOutcome>,
                              name: string, description: string)
    requires Truthy(apiUrl)
    requires picks == [1, 9, 11]
    requires name != "" && description != ""
    requires outcomes == [Payload(Some(name), Some(description)), Thrown, Payload(None, None)]
    ensures Generate(apiUrl, picks, outcomes)
            == Run(View([Idea(AudioMusic, name, description), Fallback(RetroWeb), Fallback(Accessibility)],
                        false, ""),
                   ["audio-music", "retro-web", "accessibility"])
  {
    ScenarioSample();
    ScenarioBatch(outcomes, name, description);
    GenerateShowsSampledBatch(apiUrl, picks, outcomes);
  }
}
