/**
 * The flat record `BlogGeneratorApp.save_to_supabase` inserts into the
 * `blog_projects` table after a successful generation.
 */
module Records {
  import opened Wrappers
  import opened Text

  const Completed := "completed"

  datatype ProjectRecord = ProjectRecord(
    referenceText: string,
    referenceUrl: Option<string>,
    analysisResult: string,
    topic: string,
    keywords: string,
    requirements: Option<string>,
    generatedContent: string,
    status: string)

  /** The values the record is built from: five input boxes, the analysis and the generated text. */
  datatype Inputs = Inputs(
    reference: string,
    url: string,
    analysis: string,
    topic: string,
    keywords: string,
    requirements: string,
    generated: string)

  /** An empty string is stored as a missing value. */
  function NoneIfEmpty(s: string): (r: Option<string>)
    ensures r.None? <==> s == ""
    ensures OrEmpty(r) == s
  {
    if s == "" then None else Some(s)
  }

  /** The record: input boxes stripped, empty URL and requirements as None, status "completed". */
  function Build(f: Inputs): (r: ProjectRecord)
    ensures r.status == Completed
    ensures r.referenceUrl.None? <==> IsBlank(f.url)
    ensures r.requirements.None? <==> IsBlank(f.requirements)
    ensures r.referenceUrl != Some("") && r.requirements != Some("")
  {
    ProjectRecord(
      Strip(f.reference),
      NoneIfEmpty(Strip(f.url)),
      f.analysis,
      Strip(f.topic),
      Strip(f.keywords),
      NoneIfEmpty(Strip(f.requirements)),
      f.generated,
      Completed)
  }

  /** The inputs as the record holds them: the input boxes stripped. */
  function Normalize(f: Inputs): Inputs {
    Inputs(Strip(f.reference), Strip(f.url), f.analysis, Strip(f.topic), Strip(f.keywords),
           Strip(f.requirements), f.generated)
  }

  /** Reads the inputs back out of a record, a missing value as the empty string. */
  function Recover(r: ProjectRecord): Inputs {
    Inputs(r.referenceText, OrEmpty(r.referenceUrl), r.analysisResult, r.topic, r.keywords,
           OrEmpty(r.requirements), r.generatedContent)
  }

  /** The records this application writes: stripped boxes, no empty optional, status "completed". */
  ghost predicate WellFormed(r: ProjectRecord) {
    && r.status == Completed
    && r.referenceUrl != Some("") && r.requirements != Some("")
    && IsStripped(r.referenceText)
    && IsStripped(OrEmpty(r.referenceUrl))
    && IsStripped(r.topic)
    && IsStripped(r.keywords)
    && IsStripped(OrEmpty(r.requirements))
  }

  /** Building loses nothing but the whitespace around the input boxes. */
  lemma BuildRecoverRoundTrip(f: Inputs)
    ensures Recover(Build(f)) == Normalize(f)
  {
    var r := Build(f);
    assert OrEmpty(r.referenceUrl) == Strip(f.url);
    assert OrEmpty(r.requirements) == Strip(f.requirements);
  }

  /** Every record built is well formed. */
  lemma BuildWellFormed(f: Inputs)
    ensures WellFormed(Build(f))
  {
  }

  /** A stored optional value reads back to itself. */
  lemma OptionalRoundTrip(u: Option<string>)
    requires u != Some("") && IsStripped(OrEmpty(u))
    ensures NoneIfEmpty(Strip(OrEmpty(u))) == u
  {
    StripKeepsStripped(OrEmpty(u));
  }

  /** Every well-formed record is the record of the inputs it holds. */
  lemma RecoverBuildRoundTrip(r: ProjectRecord)
    requires WellFormed(r)
    ensures Build(Recover(r)) == r
  {
    StripKeepsStripped(r.referenceText);
    StripKeepsStripped(r.topic);
    StripKeepsStripped(r.keywords);
    OptionalRoundTrip(r.referenceUrl);
    OptionalRoundTrip(r.requirements);
  }
}
