/**
 Retrieved context and the chain of citations behind it. A retrieval link embeds the item it was bound from, so
 verification recurs through stored files; nothing but the set of visited digests bounds it.
 */
module Lineage {
  import opened Records

  datatype Meta = Meta(id: string, incident: string, kind: Source, observedAt: int, collectedAt: int, query: string,
                       resource: string, summary: string)

  datatype Item = Item(meta: Meta, sha: string)

  datatype Scope = Scope(incident: string, namespace: string, service: string)

  /** A stored payload: a retrieval link, another object with or without the two scope fields, or no object. */
  datatype Payload =
    | Link(scope: Scope, index: string, source: Item, retrievedAt: int)
    | Fields(namespace: Option<string>, service: Option<string>)
    | Other

  /** Files by digest, each with the item metadata it holds. */
  type Files = map<string, (Meta, Payload)>

  const MAX_LINKS := 8
  const PREFIX := "elasticsearch://"

  function Read(files: Files, item: Item): Option<Payload> {
    if item.sha in files && files[item.sha].0 == item.meta then Some(files[item.sha].1) else None
  }

  function IndexOf(kind: Source): Option<string> {
    match kind
    case RUNBOOK => Some("payops-runbooks-v1")
    case MEMORY => Some("payops-memory-v1")
    case _ => None
  }

  predicate IsRetrieved(item: Item) {
    PREFIX <= item.meta.query
  }

  /** The checks of one link against the item that carries it. */
  function LinkOf(files: Files, item: Item): (r: Option<Payload>)
    ensures r.Some? ==> r.value.Link?
  {
    var read := Read(files, item);
    if read.None? || !read.value.Link? then None
    else
      var (link, m, s) := (read.value, item.meta, read.value.source.meta);
      if IndexOf(m.kind).None? || IndexOf(m.kind) != Some(link.index) then None
      else if m.query != PREFIX + link.index + "/fixed-scope-match" || m.incident != link.scope.incident
              || m.resource != link.scope.service || s.kind != m.kind || s.resource != m.resource
              || m.summary != s.summary || m.observedAt != s.observedAt
              || !(s.observedAt <= s.collectedAt <= link.retrievedAt <= m.collectedAt)
      then None
      else Some(link)
  }

  type ScopeFields = (Option<string>, Option<string>)

  function Named(scope: Scope): ScopeFields {
    (Some(scope.namespace), Some(scope.service))
  }

  /** `_verify_retrieval`: the visited digests bound the recursion. */
  function VerifyRetrieval(files: Files, item: Item, seen: set<string>): (r: Option<Payload>)
    ensures r.Some? ==> r == LinkOf(files, item)
    decreases MAX_LINKS - |seen|, 1
  {
    if item.sha in seen || |seen| >= MAX_LINKS then None
    else
      var link := LinkOf(files, item);
      if link.None? then None
      else if SourceScope(files, link.value.source, seen + {item.sha}) != Some(Named(link.value.scope)) then None
      else link
  }

  /** `_source_scope`: another link, or an original that names its own scope. */
  function SourceScope(files: Files, item: Item, seen: set<string>): Option<ScopeFields>
    decreases MAX_LINKS - |seen|, 2
  {
    var read := Read(files, item);
    if read.None? then None
    else if IsRetrieved(item) then
      var previous := VerifyRetrieval(files, item, seen);
      if previous.None? then None else Some(Named(previous.value.scope))
    else
      match read.value
      case Fields(namespace, service) => Some((namespace, service))
      case Link(_, _, _, _) => Some((None, None))
      case Other => None
  }

  /** The shared `seen` set of one verification. */
  class Visited {
    var digests: set<string>

    constructor ()
      ensures digests == {}
    {
      digests := {};
    }
  }

  method Verify(files: Files, item: Item, seen: Visited) returns (r: Option<Payload>)
    modifies seen
    ensures r == VerifyRetrieval(files, item, old(seen.digests))
    ensures old(seen.digests) <= seen.digests
    decreases MAX_LINKS - |seen.digests|, 1
  {
    if item.sha in seen.digests || |seen.digests| >= MAX_LINKS {
      return None;
    }
    seen.digests := seen.digests + {item.sha};
    var link := LinkOf(files, item);
    if link.None? {
      return None;
    }
    var actual := ScopeOfSource(files, link.value.source, seen);
    if actual != Some(Named(link.value.scope)) {
      return None;
    }
    r := link;
  }

  method ScopeOfSource(files: Files, item: Item, seen: Visited) returns (r: Option<ScopeFields>)
    modifies seen
    ensures r == SourceScope(files, item, old(seen.digests))
    ensures old(seen.digests) <= seen.digests
    decreases MAX_LINKS - |seen.digests|, 2
  {
    var read := Read(files, item);
    if read.None? {
      return None;
    }
    if IsRetrieved(item) {
      var previous := Verify(files, item, seen);
      return if previous.None? then None else Some(Named(previous.value.scope));
    }
    match read.value
    case Fields(namespace, service) => r := Some((namespace, service));
    case Link(_, _, _, _) => r := Some((None, None));
    case Other => r := None;
  }

  // ----- the chain behind an accepted item

  /** Links from `chain[0]` down to an original, all of one namespace and service. */
  ghost predicate Chain(files: Files, chain: seq<Item>, namespace: string, service: string)
    decreases |chain|
  {
    && |chain| >= 2
    && LinkOf(files, chain[0]).Some?
    && var link := LinkOf(files, chain[0]).value;
       && link.source == chain[1] && link.scope.namespace == namespace && link.scope.service == service
       && (if IsRetrieved(chain[1]) then Chain(files, chain[1..], namespace, service)
           else |chain| == 2 && Read(files, chain[1]) == Some(Fields(Some(namespace), Some(service))))
  }

  function Shas(items: seq<Item>): seq<string> {
    seq(|items|, i requires 0 <= i < |items| => items[i].sha)
  }

  /** The digests of all links, the original left out. */
  function LinkShas(chain: seq<Item>): seq<string>
    requires chain != []
  {
    Shas(chain[..|chain| - 1])
  }

  ghost predicate Fresh(chain: seq<Item>, seen: set<string>)
    requires chain != []
  {
    && Distinct(LinkShas(chain)) && (forall x :: x in LinkShas(chain) ==> x !in seen)
    && |seen| + |chain| - 1 <= MAX_LINKS
  }

  lemma LinkShasStep(chain: seq<Item>)
    requires |chain| >= 2
    ensures LinkShas(chain) == [chain[0].sha] + LinkShas(chain[1..])
  {
    assert chain[..|chain| - 1][0] == chain[0];
    assert chain[1..][..|chain| - 2] == chain[..|chain| - 1][1..];
  }

  lemma FreshStep(chain: seq<Item>, seen: set<string>)
    requires |chain| >= 2 && chain[0].sha !in seen
    ensures Fresh(chain, seen) <==> Fresh(chain[1..], seen + {chain[0].sha})
  {
    LinkShasStep(chain);
    var tail := LinkShas(chain[1..]);
    var more := seen + {chain[0].sha};
    if Fresh(chain, seen) {
      forall x | x in tail ensures x !in more {
        var i :| 0 <= i < |tail| && tail[i] == x;
        assert LinkShas(chain)[i + 1] == x && LinkShas(chain)[0] == chain[0].sha;
      }
      forall i, j | 0 <= i < j < |tail| ensures tail[i] != tail[j] {
        assert LinkShas(chain)[i + 1] != LinkShas(chain)[j + 1];
      }
    }
    if Fresh(chain[1..], more) {
      forall j | 0 <= j < |tail| ensures tail[j] != chain[0].sha {
        assert tail[j] in tail;
      }
    }
  }

  /** Acceptance finds the chain. */
  lemma {:induction false} AcceptedHasChain(files: Files, item: Item, seen: set<string>) returns (chain: seq<Item>)
    requires VerifyRetrieval(files, item, seen).Some?
    ensures |chain| >= 2 && chain[0] == item && Fresh(chain, seen)
    ensures var scope := VerifyRetrieval(files, item, seen).value.scope;
      Chain(files, chain, scope.namespace, scope.service)
    decreases MAX_LINKS - |seen|
  {
    hide LinkOf;
    var link := LinkOf(files, item).value;
    var more := seen + {item.sha};
    if IsRetrieved(link.source) {
      var rest := AcceptedHasChain(files, link.source, more);
      chain := [item] + rest;
      assert chain[1..] == rest;
    } else {
      chain := [item, link.source];
      assert LinkShas(chain) == [item.sha];
      assert LinkShas(chain[1..]) == [];
    }
    FreshStep(chain, seen);
  }

  /** A fresh chain of at most eight links is accepted. */
  lemma {:induction false} ChainIsAccepted(files: Files, chain: seq<Item>, namespace: string, service: string,
                                           seen: set<string>)
    requires Chain(files, chain, namespace, service) && Fresh(chain, seen)
    ensures VerifyRetrieval(files, chain[0], seen) == LinkOf(files, chain[0])
    decreases |chain|
  {
    hide LinkOf;
    LinkShasStep(chain);
    assert chain[0].sha in LinkShas(chain);
    FreshStep(chain, seen);
    if IsRetrieved(chain[1]) {
      ChainIsAccepted(files, chain[1..], namespace, service, seen + {chain[0].sha});
      LinkIsRead(files, chain[1]);
    }
  }

  lemma LinkIsRead(files: Files, item: Item)
    requires LinkOf(files, item).Some?
    ensures Read(files, item) == LinkOf(files, item)
  {
  }

  /** Accepted means: at most eight distinct links down to an original of the same namespace and service. */
  lemma AcceptedExactly(files: Files, item: Item)
    ensures VerifyRetrieval(files, item, {}).Some? <==>
      exists chain, namespace, service ::
        Chain(files, chain, namespace, service) && chain[0] == item && Fresh(chain, {})
  {
    if VerifyRetrieval(files, item, {}).Some? {
      var chain := AcceptedHasChain(files, item, {});
      var scope := VerifyRetrieval(files, item, {}).value.scope;
      assert Chain(files, chain, scope.namespace, scope.service);
    }
    if exists chain, namespace, service ::
         Chain(files, chain, namespace, service) && chain[0] == item && Fresh(chain, {})
    {
      var chain, namespace, service :| Chain(files, chain, namespace, service) && chain[0] == item && Fresh(chain, {});
      ChainIsAccepted(files, chain, namespace, service, {});
    }
  }

  /**
   Along a chain nothing is refreshed: kind, service, summary and observation time stay, collection only gets later
   outward.
   */
  lemma {:induction false} ChainKeepsTheOriginal(files: Files, chain: seq<Item>, namespace: string, service: string,
                                                 k: nat)
    requires Chain(files, chain, namespace, service) && k < |chain|
    ensures var (outer, m) := (chain[0].meta, chain[k].meta);
      && m.kind == outer.kind && m.resource == outer.resource == service && m.summary == outer.summary
      && m.observedAt == outer.observedAt && m.observedAt <= m.collectedAt <= outer.collectedAt
      && (k > 0 ==> m.collectedAt <= chain[k - 1].meta.collectedAt)
      && (k < |chain| - 1 ==> chain[k + 1].meta.collectedAt <= LinkTime(files, chain[k]) <= m.collectedAt)
    decreases |chain|
  {
    if k > 0 && IsRetrieved(chain[1]) {
      ChainKeepsTheOriginal(files, chain[1..], namespace, service, k - 1);
    }
  }

  function LinkTime(files: Files, item: Item): int {
    match LinkOf(files, item)
    case Some(link) => link.retrievedAt
    case None => item.meta.collectedAt
  }
}
