/** core/settings.py: the collection registry and the service-wide constants.
    The registry is a Python dict, whose iteration order is insertion order;
    here it is the sequence of its `(key, config)` entries in that order. */
module Settings {
  import Common

  const COLLECTION_NAME: string := "w2_007_header_rag"
  const DEFAULT_COLLECTION_KEY: string := "all"
  const SEARCH_K: nat := 3
  const CHUNK_SIZE: nat := 800
  const CHUNK_OVERLAP: nat := 120
  const MAX_QUERY_COLLECTIONS: nat := 2
  const DEFAULT_QUERY_TIMEOUT_SECONDS: int := 15
  const COLLECTION_SOFT_CAP: int := 30_000
  const COLLECTION_HARD_CAP: int := 50_000

  const REQUEST_STATUS_PENDING: string := "pending"
  const REQUEST_STATUS_APPROVED: string := "approved"
  const REQUEST_STATUS_REJECTED: string := "rejected"
  const REQUEST_STATUSES: set<string> := {REQUEST_STATUS_PENDING, REQUEST_STATUS_APPROVED, REQUEST_STATUS_REJECTED}

  /** One registry entry: the vector-store collection name, a display label,
      the source files, and the query keywords that select it. */
  datatype CollectionConfig = CollectionConfig(name: string, labelText: string, fileNames: seq<string>, keywords: seq<string>)

  const COLLECTION_CONFIGS: seq<(string, CollectionConfig)> := [
    ("all", CollectionConfig(COLLECTION_NAME, "전체 (기본)", Common.DEFAULT_FILE_NAMES, [])),
    ("eu", CollectionConfig("rag_science_history_eu", "유럽 요약", ["eu_summry.md"], ["유럽", "europe"])),
    ("fr", CollectionConfig("rag_science_history_fr", "프랑스", ["fr.md"], ["프랑스", "france", "french"])),
    ("ge", CollectionConfig("rag_science_history_ge", "독일", ["ge.md"], ["독일", "germany", "german"])),
    ("it", CollectionConfig("rag_science_history_it", "이탈리아", ["it.md"], ["이탈리아", "italy", "italian"])),
    ("uk", CollectionConfig("rag_science_history_uk", "영국", ["uk.md"], ["영국", "britain", "united kingdom", "england"]))
  ]

  const COUNTRY_BY_COLLECTION_KEY: map<string, string> :=
    map["all" := "all", "eu" := "all", "fr" := "france", "ge" := "germany", "it" := "italy", "uk" := "uk"]

  /** The registry keys, in registry order (`list(COLLECTION_CONFIGS.keys())`). */
  function CollectionKeys(): (r: seq<string>)
    ensures |r| == |COLLECTION_CONFIGS|
    ensures forall i :: 0 <= i < |r| ==> r[i] == COLLECTION_CONFIGS[i].0
  {
    seq(|COLLECTION_CONFIGS|, i requires 0 <= i < |COLLECTION_CONFIGS| => COLLECTION_CONFIGS[i].0)
  }

  /** The registry keys, written out. */
  lemma CollectionKeysLiteral()
    ensures CollectionKeys() == ["all", "eu", "fr", "ge", "it", "uk"]
  {
  }

  /** The default key is registered first, with no keywords, so no keyword
      match can select it; no other entry has that key. */
  lemma DefaultKeyHasNoKeywords()
    ensures COLLECTION_CONFIGS[0].0 == DEFAULT_COLLECTION_KEY && COLLECTION_CONFIGS[0].1.keywords == []
    ensures forall i :: 0 < i < |COLLECTION_CONFIGS| ==> COLLECTION_CONFIGS[i].0 != DEFAULT_COLLECTION_KEY
  {
  }

  /** Registry keys are pairwise distinct, and so are collection names. */
  lemma RegistryEntriesDistinct()
    ensures forall i, j :: 0 <= i < j < |COLLECTION_CONFIGS| ==> COLLECTION_CONFIGS[i].0 != COLLECTION_CONFIGS[j].0
    ensures forall i, j :: 0 <= i < j < |COLLECTION_CONFIGS| ==> COLLECTION_CONFIGS[i].1.name != COLLECTION_CONFIGS[j].1.name
  {
  }

  /** Every registered key has a default country. */
  lemma EveryKeyHasCountry()
    ensures forall i :: 0 <= i < |COLLECTION_CONFIGS| ==> COLLECTION_CONFIGS[i].0 in COUNTRY_BY_COLLECTION_KEY
    ensures COUNTRY_BY_COLLECTION_KEY.Keys == set i | 0 <= i < |COLLECTION_CONFIGS| :: COLLECTION_CONFIGS[i].0
  {
    var keys := set i | 0 <= i < |COLLECTION_CONFIGS| :: COLLECTION_CONFIGS[i].0;
    assert COLLECTION_CONFIGS[0].0 in keys && COLLECTION_CONFIGS[1].0 in keys && COLLECTION_CONFIGS[2].0 in keys;
    assert COLLECTION_CONFIGS[3].0 in keys && COLLECTION_CONFIGS[4].0 in keys && COLLECTION_CONFIGS[5].0 in keys;
  }

  /** The caps and limits the rest of the service relies on. */
  lemma Limits()
    ensures 0 < COLLECTION_SOFT_CAP < COLLECTION_HARD_CAP
    ensures MAX_QUERY_COLLECTIONS == 2 && SEARCH_K == 3
    ensures REQUEST_STATUSES == {"pending", "approved", "rejected"}
  {
  }
}
