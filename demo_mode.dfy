/**
 * Canned answers for visitors without cloud credentials: a model display
 * name is normalised to a table key, and the query picks either the H2/VQE
 * entry or the materials entry of that model. The texts themselves are not
 * modelled; a reply names the table cell it comes from.
 */
module DemoMode {
  import opened Text

  const VqeEntry: string := "vqe_h2"
  const MaterialsEntry: string := "materials"

  /** The keys of the response table, each with both entries. */
  const DemoModels: seq<string> := ["nova_pro", "llama4", "llama3", "openai"]

  predicate HasDemo(key: string) { key in DemoModels }

  datatype Reply = Canned(model: string, entry: string) | NotAvailable

  /** `.replace(" ", "_")`: every space becomes an underscore. */
  function Underscored(s: string): (r: string)
    ensures |r| == |s|
    ensures forall i :: 0 <= i < |s| ==> r[i] == (if s[i] == ' ' then '_' else s[i])
  {
    if s == [] then [] else [if s[0] == ' ' then '_' else s[0]] + Underscored(s[1..])
  }

  /** The three long names shortened, in this order (the `nova_pro` rewrite is the identity). */
  function Shorten(s: string): string
  {
    ReplaceAll(ReplaceAll(ReplaceAll(s, "llama_4_scout", "llama4"), "llama_3_70b", "llama3"), "openai_gpt_oss", "openai")
  }

  /** Lower case, spaces to `_`, then shortened. */
  function ModelKey(name: string): string
  {
    Shorten(Underscored(Lower(name)))
  }

  /** The entry a query selects: the H2/VQE one when either word occurs, ignoring case. */
  function Topic(query: string): (t: string)
    ensures t == VqeEntry <==> Contains(Lower(query), "h2") || Contains(Lower(query), "vqe")
    ensures t == VqeEntry || t == MaterialsEntry
  {
    if Contains(Lower(query), "h2") || Contains(Lower(query), "vqe") then VqeEntry else MaterialsEntry
  }

  /** `get_demo_response` */
  function GetDemoResponse(modelName: string, query: string): (r: Reply)
    ensures r.Canned? <==> HasDemo(ModelKey(modelName))
    ensures r.Canned? ==> r.model == ModelKey(modelName) && r.entry == Topic(query)
  {
    var key := ModelKey(modelName);
    if HasDemo(key) then Canned(key, Topic(query)) else NotAvailable
  }

  /** A text shorter than the pattern is left alone. */
  lemma ReplaceShort(s: string, pat: string, rep: string)
    requires 0 < |pat| && |s| < |pat|
    ensures ReplaceAll(s, pat, rep) == s
  {
  }

  /** A text that is exactly the pattern becomes the replacement. */
  lemma ReplaceWhole(pat: string, rep: string)
    requires 0 < |pat|
    ensures ReplaceAll(pat, pat, rep) == rep
  {
    assert pat[|pat|..] == [];
    assert rep + [] == rep;
  }

  /**
   * The spellings the application's model names take once lower-cased and
   * underscored ("Nova Pro" becomes nova_pro, "Llama 4 Scout" llama_4_scout,
   * "Llama 3 70B" llama_3_70b, "OpenAI GPT OSS" openai_gpt_oss).
   */
  const AppSpellings: seq<string> := ["nova_pro", "llama_4_scout", "llama_3_70b", "openai_gpt_oss"]

  lemma NovaProShortened()
    ensures Shorten("nova_pro") == "nova_pro"
  {
    ReplaceShort("nova_pro", "llama_4_scout", "llama4");
    ReplaceShort("nova_pro", "llama_3_70b", "llama3");
    ReplaceShort("nova_pro", "openai_gpt_oss", "openai");
  }

  lemma Llama4Shortened()
    ensures Shorten("llama_4_scout") == "llama4"
  {
    ReplaceWhole("llama_4_scout", "llama4");
    ReplaceShort("llama4", "llama_3_70b", "llama3");
    ReplaceShort("llama4", "openai_gpt_oss", "openai");
  }

  lemma Llama3Shortened()
    ensures Shorten("llama_3_70b") == "llama3"
  {
    ReplaceShort("llama_3_70b", "llama_4_scout", "llama4");
    ReplaceWhole("llama_3_70b", "llama3");
    ReplaceShort("llama3", "openai_gpt_oss", "openai");
  }

  lemma OpenAiShortened()
    ensures Shorten("openai_gpt_oss") == "openai"
  {
    ReplaceMissingChar("openai_gpt_oss", "llama_4_scout", "llama4", 0);
    ReplaceMissingChar("openai_gpt_oss", "llama_3_70b", "llama3", 0);
    ReplaceWhole("openai_gpt_oss", "openai");
  }

  /** Each of those spellings is shortened to a key that has both canned entries. */
  lemma AppModelsHaveDemos(name: string)
    requires Underscored(Lower(name)) in AppSpellings
    ensures HasDemo(ModelKey(name))
  {
    NovaProShortened();
    Llama4Shortened();
    Llama3Shortened();
    OpenAiShortened();
  }

  /** The shortest display name, worked through in full. */
  lemma NovaProKey()
    ensures ModelKey("Nova Pro") == "nova_pro"
  {
    assert Underscored(Lower("Nova Pro")) == "nova_pro";
    NovaProShortened();
  }
}
