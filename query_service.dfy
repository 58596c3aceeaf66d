/** services/query_service.py: turning retrieved passages into the prompt
    context. The passages of several collections are
    - de-duplicated by fingerprint, keeping the first occurrence;
    - capped at `SEARCH_K` per collection;
    - numbered and joined;
    - cut to an optional character budget.
    Retrieval (an MMR search in the vector store) is an input: `retrieve(key)`
    is what the retriever of collection `key` returns for the question. */
module QueryService {
  import opened Wrappers
  import opened Text
  import opened Errors
  import opened Dedup
  import opened Settings
  import Common
  import CollectionService
  import RuntimeService

  type Document = Common.Document

  /** `doc.metadata.get(key, default)`. */
  function MetaOr(d: Document, key: string, default: string): string {
    if key in d.metadata then d.metadata[key] else default
  }

  // ---------------------------------------------------------------------------
  // format_docs
  // ---------------------------------------------------------------------------

  /** The block of the passage numbered `index`. */
  function Block(index: nat, d: Document): string {
    "[" + NatToString(index) + "] source=" + MetaOr(d, "source", "unknown") + " h2=" + MetaOr(d, "h2", "")
    + "\n" + d.pageContent
  }

  /** The blocks of `docs`, numbered from `start` on. */
  function Blocks(docs: seq<Document>, start: nat): (r: seq<string>)
    ensures |r| == |docs|
  {
    if docs == [] then [] else Blocks(docs[..|docs| - 1], start) + [Block(start + |docs| - 1, docs[|docs| - 1])]
  }

  /** Block `i` belongs to passage `i`, numbered `start + i`. */
  lemma {:induction false} BlocksAt(docs: seq<Document>, start: nat, i: nat)
    requires i < |docs|
    ensures Blocks(docs, start)[i] == Block(start + i, docs[i])
    decreases |docs|
  {
    var n := |docs| - 1;
    if i < n {
      BlocksAt(docs[..n], start, i);
      assert docs[..n][i] == docs[i];
    }
  }

  /** What `format_docs` returns: the blocks numbered from 1, joined by a
      blank line. */
  function FormattedDocs(docs: seq<Document>): string {
    Join(Blocks(docs, 1), "\n\n")
  }

  /** The text of no passages is empty; one passage gives its block alone;
      each further passage adds a blank line and its block numbered next. */
  lemma FormattedDocsGrowth(docs: seq<Document>, d: Document)
    ensures FormattedDocs([]) == []
    ensures FormattedDocs([d]) == Block(1, d)
    ensures docs != [] ==> FormattedDocs(docs + [d]) == FormattedDocs(docs) + "\n\n" + Block(|docs| + 1, d)
  {
    assert [d][..0] == [];
    if docs != [] {
      assert (docs + [d])[..|docs|] == docs;
      JoinAppend(Blocks(docs, 1), "\n\n", Block(|docs| + 1, d));
    }
  }

  /** `format_docs`. */
  method FormatDocs(docs: seq<Document>) returns (text: string)
    ensures text == FormattedDocs(docs)
  {
    var lines: seq<string> := [];
    for i := 0 to |docs|
      invariant lines == Blocks(docs[..i], 1)
    {
      assert docs[..i + 1][..i] == docs[..i];
      var source := MetaOr(docs[i], "source", "unknown");
      var h2 := MetaOr(docs[i], "h2", "");
      lines := lines + ["[" + NatToString(i + 1) + "] source=" + source + " h2=" + h2 + "\n" + docs[i].pageContent];
    }
    assert docs[..|docs|] == docs;
    text := Join(lines, "\n\n");
  }

  // ---------------------------------------------------------------------------
  // build_collection_context
  // ---------------------------------------------------------------------------

  /** The de-duplication key `source|h2|content`, absent values being empty. */
  function Fingerprint(d: Document): string {
    MetaOr(d, "source", "") + "|" + MetaOr(d, "h2", "") + "|" + d.pageContent
  }

  /** The retrieved passages of `keys`, collection by collection. Opening the
      store of an unregistered key raises, at the first such key. */
  function Retrieved(keys: seq<string>, retrieve: string -> seq<Document>): (r: Result<seq<Document>, ValueError>)
  {
    if keys == [] then Ok([])
    else
      match Retrieved(keys[..|keys| - 1], retrieve)
      case Err(e) => Err(e)
      case Ok(docs) =>
        var key := keys[|keys| - 1];
        if key in CollectionKeys() then Ok(docs + retrieve(key))
        else Err(ValueError("Unsupported collection key: " + key))
  }

  /** Retrieval fails exactly when some key is unregistered, and then with the
      error of the first one. */
  lemma {:induction false} RetrievedFails(keys: seq<string>, retrieve: string -> seq<Document>)
    ensures Retrieved(keys, retrieve).Err? <==> exists i :: 0 <= i < |keys| && keys[i] !in CollectionKeys()
    ensures Retrieved(keys, retrieve).Err? ==>
              exists i :: 0 <= i < |keys| && keys[i] !in CollectionKeys()
                          && (forall j :: 0 <= j < i ==> keys[j] in CollectionKeys())
                          && Retrieved(keys, retrieve).error == ValueError("Unsupported collection key: " + keys[i])
    decreases |keys|
  {
    if keys != [] {
      var n := |keys| - 1;
      RetrievedFails(keys[..n], retrieve);
      assert forall i :: 0 <= i < n ==> keys[..n][i] == keys[i];
    }
  }

  /** The passage cap: `SEARCH_K` per collection, and at least `SEARCH_K`. */
  function MaxDocs(keyCount: nat): (m: nat)
    ensures m >= SEARCH_K && m >= SEARCH_K * keyCount
    ensures m == SEARCH_K * keyCount || m == SEARCH_K
  {
    if SEARCH_K * keyCount > SEARCH_K then SEARCH_K * keyCount else SEARCH_K
  }

  /** Python's `s[:n]`. */
  function Take<T>(s: seq<T>, n: nat): (r: seq<T>)
    ensures |r| <= n && r <= s
    ensures |r| == n || r == s
  {
    if n <= |s| then s[..n] else s
  }

  /** The passages the context is made of: the de-duplicated passages,
      capped. */
  function ContextPassages(keys: seq<string>, retrieve: string -> seq<Document>): (r: Result<seq<Document>, ValueError>)
    ensures r.Err? <==> Retrieved(keys, retrieve).Err?
  {
    match Retrieved(keys, retrieve)
    case Err(e) => Err(e)
    case Ok(all) => Ok(Take(DedupeBy(all, Fingerprint, {}), MaxDocs(|keys|)))
  }

  /** The passages are capped; no two share a fingerprint; each is the first
      retrieved passage with its fingerprint; they come in retrieval order;
      and below the cap no fingerprint is lost. */
  lemma ContextPassagesSpec(keys: seq<string>, retrieve: string -> seq<Document>)
    requires Retrieved(keys, retrieve).Ok?
    ensures var all := Retrieved(keys, retrieve).value;
            var r := ContextPassages(keys, retrieve).value;
            |r| <= MaxDocs(|keys|)
            && KeysDistinct(r, Fingerprint)
            && KeptAreFirst(all, Fingerprint, {}, r)
            && KeptInOrder(all, Fingerprint, r)
            && (|DedupeBy(all, Fingerprint, {})| <= MaxDocs(|keys|) ==> UnseenKept(all, Fingerprint, {}, r))
  {
    var all := Retrieved(keys, retrieve).value;
    var kept := DedupeBy(all, Fingerprint, {});
    DedupeByKeysDistinct(all, Fingerprint, {});
    DedupeByKeptAreFirst(all, Fingerprint, {});
    DedupeByKeptInOrder(all, Fingerprint, {});
    DedupeByUnseenKept(all, Fingerprint, {});
    TakeKeepsDedupeFacts(all, kept, MaxDocs(|keys|));
  }

  /** A prefix of de-duplicated passages is de-duplicated in the same sense. */
  lemma TakeKeepsDedupeFacts(all: seq<Document>, kept: seq<Document>, n: nat)
    requires KeysDistinct(kept, Fingerprint) && KeptAreFirst(all, Fingerprint, {}, kept) && KeptInOrder(all, Fingerprint, kept)
    ensures var r := Take(kept, n);
            KeysDistinct(r, Fingerprint) && KeptAreFirst(all, Fingerprint, {}, r) && KeptInOrder(all, Fingerprint, r)
  {
    var r := Take(kept, n);
    assert forall j :: 0 <= j < |r| ==> r[j] == kept[j];
  }

  /** The budget set by `DOC_RAG_MAX_CONTEXT_CHARS`, if any. */
  function ContextLimit(rawMaxContext: Option<string>): (r: Option<nat>)
    ensures r.Some? ==> r.value > 0
  {
    match RuntimeService.GetMaxContextChars(rawMaxContext)
    case None => None
    case Some(n) => Some(n)
  }

  /** The context cut to the budget: the prefix of the budget's length, or
      the whole context when it fits or there is no budget. */
  function Truncated(context: string, limit: Option<nat>): (r: string)
    ensures r <= context
    ensures limit.Some? && |context| > limit.value ==> |r| == limit.value
    ensures !(limit.Some? && |context| > limit.value) ==> |r| == |context|
  {
    if limit.Some? && |context| > limit.value then context[..limit.value] else context
  }

  /** What `build_collection_context` returns. */
  function CollectionContext(keys: seq<string>, retrieve: string -> seq<Document>, rawMaxContext: Option<string>)
    : (r: Result<string, ValueError>)
    ensures r.Err? <==> Retrieved(keys, retrieve).Err?
  {
    match ContextPassages(keys, retrieve)
    case Err(e) => Err(e)
    case Ok(passages) => Ok(Truncated(FormattedDocs(passages), ContextLimit(rawMaxContext)))
  }

  /** The context is a prefix of the formatted passages, within the budget
      when one is set, and the whole formatted text when it fits. */
  lemma CollectionContextWithinBudget(keys: seq<string>, retrieve: string -> seq<Document>, rawMaxContext: Option<string>)
    requires Retrieved(keys, retrieve).Ok?
    ensures var text := FormattedDocs(ContextPassages(keys, retrieve).value);
            var r := CollectionContext(keys, retrieve, rawMaxContext).value;
            var limit := RuntimeService.GetMaxContextChars(rawMaxContext);
            r <= text
            && (limit.Some? ==> |r| <= limit.value)
            && (limit.None? || |text| <= limit.value ==> r == text)
  {
  }

  /** One collection at a time, the loop of `build_collection_context` over
      the retrieved items, adding each unseen fingerprint. */
  method AddUnseen(items: seq<Document>, ghost before: seq<Document>, docs: seq<Document>, fingerprints: set<string>)
    returns (docs': seq<Document>, fingerprints': set<string>)
    requires docs == DedupeBy(before, Fingerprint, {}) && fingerprints == SeenAfter(before, Fingerprint, {})
    ensures docs' == DedupeBy(before + items, Fingerprint, {}) && fingerprints' == SeenAfter(before + items, Fingerprint, {})
  {
    docs', fingerprints' := docs, fingerprints;
    assert before + items[..0] == before;
    for j := 0 to |items|
      invariant docs' == DedupeBy(before + items[..j], Fingerprint, {})
      invariant fingerprints' == SeenAfter(before + items[..j], Fingerprint, {})
    {
      assert before + items[..j + 1] == (before + items[..j]) + [items[j]];
      docs', fingerprints' := AddIfUnseen(items[j], before + items[..j], docs', fingerprints');
    }
    assert items[..|items|] == items;
  }

  /** One step of the loop above: a passage whose fingerprint is new is kept
      and its fingerprint remembered; any other is skipped. */
  method AddIfUnseen(item: Document, ghost before: seq<Document>, docs: seq<Document>, fingerprints: set<string>)
    returns (docs': seq<Document>, fingerprints': set<string>)
    requires docs == DedupeBy(before, Fingerprint, {}) && fingerprints == SeenAfter(before, Fingerprint, {})
    ensures docs' == DedupeBy(before + [item], Fingerprint, {}) && fingerprints' == SeenAfter(before + [item], Fingerprint, {})
  {
    DedupeByStep(before, Fingerprint, {}, item);
    SeenAfterStep(before, Fingerprint, {}, item);
    var fingerprint := MetaOr(item, "source", "") + "|" + MetaOr(item, "h2", "") + "|" + item.pageContent;
    if fingerprint in fingerprints {
      docs', fingerprints' := docs, fingerprints;
      return;
    }
    fingerprints' := fingerprints + {fingerprint};
    docs' := docs + [item];
  }

  /** `build_collection_context`. `rawMaxContext` is the environment value
      `get_max_context_chars` reads. */
  method BuildCollectionContext(keys: seq<string>, retrieve: string -> seq<Document>, rawMaxContext: Option<string>)
    returns (r: Result<string, ValueError>)
    ensures r == CollectionContext(keys, retrieve, rawMaxContext)
  {
    var docs: seq<Document> := [];
    var fingerprints: set<string> := {};
    ghost var all: seq<Document> := [];
    for i := 0 to |keys|
      invariant Retrieved(keys[..i], retrieve) == Ok(all)
      invariant docs == DedupeBy(all, Fingerprint, {}) && fingerprints == SeenAfter(all, Fingerprint, {})
    {
      assert keys[..i + 1][..i] == keys[..i];
      var key := keys[i];
      var name := CollectionService.GetCollectionName(key);
      if name.Err? {
        assert Retrieved(keys[..i + 1], retrieve).Err?;
        RetrievedPrefixFails(keys, retrieve, i + 1);
        return Err(name.error);
      }
      docs, fingerprints := AddUnseen(retrieve(key), all, docs, fingerprints);
      all := all + retrieve(key);
    }
    assert keys[..|keys|] == keys;
    var context := CappedContext(docs, |keys|, rawMaxContext);
    return Ok(context);
  }

  /** The end of `build_collection_context`: cap, format, cut. */
  method CappedContext(docs: seq<Document>, keyCount: nat, rawMaxContext: Option<string>) returns (context: string)
    ensures context == Truncated(FormattedDocs(Take(docs, MaxDocs(keyCount))), ContextLimit(rawMaxContext))
  {
    var maxDocs := if SEARCH_K * keyCount > SEARCH_K then SEARCH_K * keyCount else SEARCH_K;
    context := FormatDocs(if maxDocs <= |docs| then docs[..maxDocs] else docs);
    var limit := RuntimeService.GetMaxContextChars(rawMaxContext);
    if limit.Some? && |context| > limit.value {
      context := context[..limit.value];
    }
  }

  /** Once a prefix of the keys fails, retrieval of all of them fails with the
      same error. */
  lemma {:induction false} RetrievedPrefixFails(keys: seq<string>, retrieve: string -> seq<Document>, n: nat)
    requires n <= |keys| && Retrieved(keys[..n], retrieve).Err?
    ensures Retrieved(keys, retrieve) == Retrieved(keys[..n], retrieve)
    decreases |keys| - n
  {
    if n < |keys| {
      assert keys[..n + 1][..n] == keys[..n];
      RetrievedPrefixFails(keys, retrieve, n + 1);
    } else {
      assert keys[..n] == keys;
    }
  }
}
