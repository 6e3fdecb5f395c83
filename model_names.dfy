/**
 * The model names of the Anthropic runner: `getModelId`, which turns the
 * name an agent is configured with into a provider model id, and
 * `isAnthropicModel`, which classifies a name.
 */
module ModelNames {
  import opened Util

  const DefaultModel: string := "claude-3-5-sonnet-20241022"

  /** The table of known model names. */
  const ModelMap: map<string, string> :=
    map[
      "anthropic/claude-3-opus" := "claude-3-opus-20240229",
      "anthropic/claude-3-sonnet" := "claude-3-sonnet-20240229",
      "anthropic/claude-3-haiku" := "claude-3-haiku-20240307",
      "anthropic/claude-3.5-sonnet" := "claude-3-5-sonnet-20241022",
      "anthropic/claude-3-5-sonnet" := "claude-3-5-sonnet-20241022",
      "anthropic/claude-3.5-haiku" := "claude-3-5-haiku-20241022",
      "anthropic/claude-sonnet-4" := "claude-sonnet-4-20250514",
      "anthropic/claude-opus-4" := "claude-opus-4-20250514",
      "claude-3-opus" := "claude-3-opus-20240229",
      "claude-3-sonnet" := "claude-3-sonnet-20240229",
      "claude-3-haiku" := "claude-3-haiku-20240307",
      "claude-3.5-sonnet" := "claude-3-5-sonnet-20241022",
      "claude-3-5-sonnet" := "claude-3-5-sonnet-20241022",
      "claude-3.5-haiku" := "claude-3-5-haiku-20241022",
      "claude-sonnet-4" := "claude-sonnet-4-20250514",
      "claude-opus-4" := "claude-opus-4-20250514"
    ]

  /** Already a dated model id: starts with `claude-` and contains `-202`. */
  predicate IsDatedId(m: string) {
    StartsWith(m, "claude-") && Contains(m, "-202")
  }

  /** `getModelId`: a dated id unchanged, else the table's id, else the default. */
  function ModelId(m: Option<string>): (r: string)
    ensures m.Some? && IsDatedId(m.value) ==> r == m.value
    ensures m.Some? && !IsDatedId(m.value) && m.value in ModelMap ==> r == ModelMap[m.value]
    ensures (m.None? || (!IsDatedId(m.value) && m.value !in ModelMap)) ==> r == DefaultModel
  {
    if m.Some? && IsDatedId(m.value) then m.value
    else if m.Some? && m.value in ModelMap then ModelMap[m.value]
    else DefaultModel
  }

  /** No table key is a dated id (none contains a `0`), so every key maps to its table entry. */
  lemma ModelMapKeys(k: string)
    requires k in ModelMap
    ensures ModelId(Some(k)) == ModelMap[k]
  {
    assert '0' !in k;
    if Contains(k, "-202") {
      ContainsChar(k, "-202", 2);
    }
  }

  /** The namespaced and the bare form of each Claude 3 and Claude 4 name are keys with the same id. */
  lemma AliasesClaude3And4()
    ensures "anthropic/claude-3-opus" in ModelMap && "claude-3-opus" in ModelMap && ModelMap["anthropic/claude-3-opus"] == ModelMap["claude-3-opus"]
    ensures "anthropic/claude-3-sonnet" in ModelMap && "claude-3-sonnet" in ModelMap && ModelMap["anthropic/claude-3-sonnet"] == ModelMap["claude-3-sonnet"]
    ensures "anthropic/claude-3-haiku" in ModelMap && "claude-3-haiku" in ModelMap && ModelMap["anthropic/claude-3-haiku"] == ModelMap["claude-3-haiku"]
    ensures "anthropic/claude-sonnet-4" in ModelMap && "claude-sonnet-4" in ModelMap && ModelMap["anthropic/claude-sonnet-4"] == ModelMap["claude-sonnet-4"]
    ensures "anthropic/claude-opus-4" in ModelMap && "claude-opus-4" in ModelMap && ModelMap["anthropic/claude-opus-4"] == ModelMap["claude-opus-4"]
  {
  }

  /** The namespaced and the bare form of each Claude 3.5 name are keys with the same id. */
  lemma AliasesClaude35()
    ensures "anthropic/claude-3.5-sonnet" in ModelMap && "claude-3.5-sonnet" in ModelMap && ModelMap["anthropic/claude-3.5-sonnet"] == ModelMap["claude-3.5-sonnet"]
    ensures "anthropic/claude-3-5-sonnet" in ModelMap && "claude-3-5-sonnet" in ModelMap && ModelMap["anthropic/claude-3-5-sonnet"] == ModelMap["claude-3-5-sonnet"]
    ensures "anthropic/claude-3.5-haiku" in ModelMap && "claude-3.5-haiku" in ModelMap && ModelMap["anthropic/claude-3.5-haiku"] == ModelMap["claude-3.5-haiku"]
  {
  }

  /** `-202` at position `i`. */
  lemma DatedAt(v: string, i: nat)
    requires i + 4 <= |v| && v[i] == '-' && v[i + 1] == '2' && v[i + 2] == '0' && v[i + 3] == '2'
    ensures Contains(v, "-202")
  {
    assert v[i..i + 4] == "-202";
    ContainsAt(v, "-202", i);
  }

  /** A name that starts with `claude-` and has `-202` at position `i` is a dated id. */
  lemma DatedIdAt(v: string, i: nat)
    requires StartsWith(v, "claude-")
    requires i + 4 <= |v| && v[i] == '-' && v[i + 1] == '2' && v[i + 2] == '0' && v[i + 3] == '2'
    ensures IsDatedId(v)
  {
    DatedAt(v, i);
  }

  /** The Claude 3 ids of the table are dated. */
  lemma DatedClaude3()
    ensures IsDatedId("claude-3-opus-20240229")
    ensures IsDatedId("claude-3-sonnet-20240229")
    ensures IsDatedId("claude-3-haiku-20240307")
  {
    DatedIdAt("claude-3-opus-20240229", 13);
    DatedIdAt("claude-3-sonnet-20240229", 15);
    DatedIdAt("claude-3-haiku-20240307", 14);
  }

  /** The Claude 3.5 ids of the table (the default among them) are dated. */
  lemma DatedClaude35()
    ensures IsDatedId("claude-3-5-sonnet-20241022")
    ensures IsDatedId("claude-3-5-haiku-20241022")
  {
    DatedIdAt("claude-3-5-sonnet-20241022", 17);
    DatedIdAt("claude-3-5-haiku-20241022", 16);
  }

  /** The Claude 4 ids of the table are dated. */
  lemma DatedClaude4()
    ensures IsDatedId("claude-sonnet-4-20250514")
    ensures IsDatedId("claude-opus-4-20250514")
  {
    DatedIdAt("claude-sonnet-4-20250514", 15);
    DatedIdAt("claude-opus-4-20250514", 13);
  }

  /** Mapping is idempotent: every id it produces is dated, so is returned unchanged. */
  lemma ModelIdIdempotent(m: Option<string>)
    ensures IsDatedId(ModelId(m))
    ensures ModelId(Some(ModelId(m))) == ModelId(m)
  {
    DatedClaude3();
    DatedClaude35();
    DatedClaude4();
  }

  /** `isAnthropicModel`: a non-empty name whose lower-case form contains `claude` or `anthropic`. */
  function IsAnthropicModel(m: Option<string>): (r: bool)
    ensures !Truthy(m) ==> !r
  {
    if !Truthy(m) then false
    else
      var lower := Lower(m.value);
      Contains(lower, "claude") || Contains(lower, "anthropic")
  }

  /** The classification ignores ASCII case. */
  lemma IsAnthropicIgnoresCase(s: string)
    ensures IsAnthropicModel(Some(Lower(s))) == IsAnthropicModel(Some(s))
  {
    LowerIdempotent(s);
  }

  /** Every id `getModelId` produces is classified as an Anthropic model. */
  lemma ModelIdIsAnthropic(m: Option<string>)
    ensures IsAnthropicModel(Some(ModelId(m)))
  {
    var r := ModelId(m);
    ModelIdIdempotent(m);
    var lower := Lower(r);
    assert lower[..6] == "claude" by {
      assert r[..7] == "claude-";
      forall i | 0 <= i < 6
        ensures lower[i] == "claude"[i]
      {
        assert r[i] == "claude-"[i];
      }
    }
    ContainsAt(lower, "claude", 0);
  }
}
