/**
 * The lineage model generator of the web app: fetches a document with its
 * lineage (the chain of its parent places and contacts) and shapes the
 * fetched list into the models the views use. The fetch and fill helpers
 * belong to the lineage library and are parameters here.
 */
module LineageModelGenerator {
  import opened Wrappers

  /**
   * A document: its `_id`, its `name`, its parent (hydrated, so itself a
   * document with a parent) and, for a report, its `contact`.
   */
  datatype Doc = Doc(id: string, name: string, parent: Option<Doc>, contact: Option<Doc>)

  /** The error `get` raises: message and `code`. */
  datatype Error = Error(message: string, code: nat)

  const NotFound := Error("Document not found", 404)

  /** The number of parents above a document. */
  function Depth(doc: Doc): nat {
    match doc.parent
    case None => 0
    case Some(p) => 1 + Depth(p)
  }

  /**
   * The parent chain of a document, nearest first: its first element is the
   * document's parent, each next one the previous one's parent, and the last
   * one has no parent.
   */
  function Ancestors(doc: Doc): (chain: seq<Doc>)
    ensures |chain| == Depth(doc)
    ensures chain == [] <==> doc.parent.None?
    ensures chain != [] ==> doc.parent == Some(chain[0]) && chain[|chain| - 1].parent.None?
  {
    match doc.parent
    case None => []
    case Some(p) => [p] + Ancestors(p)
  }

  /** Each ancestor's parent is the next one in the chain. */
  lemma {:induction false} AncestorsLinked(doc: Doc)
    ensures forall k :: 0 < k < |Ancestors(doc)| ==> Ancestors(doc)[k - 1].parent == Some(Ancestors(doc)[k])
    decreases doc
  {
    match doc.parent
    case None =>
    case Some(p) =>
      AncestorsLinked(p);
      assert Ancestors(doc) == [p] + Ancestors(p);
  }

  /** `names` lists the names of the document's ancestors, nearest first. */
  ghost predicate IsLineageNames(names: seq<string>, doc: Doc) {
    |names| == |Ancestors(doc)| && forall k :: 0 <= k < |names| ==> names[k] == Ancestors(doc)[k].name
  }

  /** The ancestors still to visit when the walk stands at `parent`. */
  function Remaining(parent: Option<Doc>): seq<Doc> {
    match parent
    case None => []
    case Some(p) => [p] + Ancestors(p)
  }

  /** lineageNames: walk up the parent chain collecting each parent's name. */
  method LineageNames(doc: Doc) returns (names: seq<string>)
    ensures |names| == Depth(doc)
    ensures doc.parent.None? ==> names == []
    ensures IsLineageNames(names, doc)
  {
    names := [];
    var parent := doc.parent;
    while parent.Some?
      invariant |names| <= |Ancestors(doc)|
      invariant Ancestors(doc)[|names|..] == Remaining(parent)
      invariant forall k :: 0 <= k < |names| ==> names[k] == Ancestors(doc)[k].name
      decreases parent
    {
      ghost var chain := Ancestors(doc);
      var p := parent.value;
      assert chain[|names|..] == [p] + Remaining(p.parent);
      assert chain[|names| + 1..] == chain[|names|..][1..];
      names := names + [p.name];
      parent := p.parent;
      assert forall k :: 0 <= k < |names| ==> names[k] == chain[k].name;
    }
  }

  /** get: the fetched list, or the 404 error when nothing was found. */
  function Get(fetched: seq<Doc>): (r: Result<seq<Doc>, Error>)
    ensures r.Failure? <==> fetched == []
    ensures r.Failure? ==> r.error.code == 404
    ensures r.Success? ==> r.value == fetched
  {
    if |fetched| == 0 then Failure(NotFound) else Success(fetched)
  }

  /** The lineage library's helpers used here. */
  datatype LineageLib = LineageLib(
    fetchContacts: seq<Doc> -> seq<Doc>,      // fetchContacts(docs)
    fillContact: (Doc, seq<Doc>) -> Doc,      // fillContactsInDocs, on one document
    fillParents: (Doc, seq<Doc>) -> Doc       // fillParentsInDocs(doc, lineage)
  )

  /** hydrate: fill the contacts of every document in place, from one fetch of the contacts. */
  function Hydrate(lib: LineageLib, docs: seq<Doc>): (hydrated: seq<Doc>)
    ensures |hydrated| == |docs|
    ensures forall i :: 0 <= i < |docs| ==> hydrated[i] == lib.fillContact(docs[i], lib.fetchContacts(docs))
  {
    var contacts := lib.fetchContacts(docs);
    seq(|docs|, i requires 0 <= i < |docs| => lib.fillContact(docs[i], contacts))
  }

  /** A contact model, and the report-subject model of the same shape: `_id`, `doc` and `lineage`. */
  datatype LineageModel = LineageModel(id: string, doc: Doc, lineage: seq<Doc>)

  /** A report model: `_id`, the report, its contact (missing when the list has one document) and the lineage. */
  datatype ReportModel = ReportModel(id: string, doc: Doc, contact: Option<Doc>, lineage: seq<Doc>)

  /** One element of `reportSubjects`: `_id`, the document and its ancestors' names. */
  datatype SubjectSummary = SubjectSummary(id: string, doc: Doc, lineage: seq<string>)

  /**
   * contact: from the hydrated list, the first document is the contact and
   * the rest its lineage; with `merge` the contact has its parents filled
   * from the lineage. An empty fetch fails with 404.
   */
  function Contact(lib: LineageLib, id: string, merge: bool, fetched: seq<Doc>): (r: Result<LineageModel, Error>)
    ensures r.Failure? <==> fetched == []
    ensures r.Failure? ==> r.error == NotFound
    ensures r.Success? ==>
              var hydrated := Hydrate(lib, fetched);
              && r.value.id == id
              && r.value.lineage == hydrated[1..]
              && (!merge ==> [r.value.doc] + r.value.lineage == hydrated)
              && (merge ==> r.value.doc == lib.fillParents(hydrated[0], r.value.lineage))
  {
    match Get(fetched)
    case Failure(e) => Failure(e)
    case Success(docs) =>
      var hydrated := Hydrate(lib, docs);
      var doc := hydrated[0];
      var lineage := hydrated[1..];
      Success(LineageModel(id, if merge then lib.fillParents(doc, lineage) else doc, lineage))
  }

  /** A missing value as an empty list, a present one as a singleton. */
  function AsList(x: Option<Doc>): seq<Doc> {
    match x
    case None => []
    case Some(d) => [d]
  }

  /**
   * report: from the hydrated list, the first document is the report, the
   * second its contact and the rest the lineage; with `merge` the report's
   * own `contact` field has its parents filled from the lineage. An empty
   * fetch fails with 404.
   */
  function Report(lib: LineageLib, id: string, merge: bool, fetched: seq<Doc>): (r: Result<ReportModel, Error>)
    ensures r.Failure? <==> fetched == []
    ensures r.Failure? ==> r.error == NotFound
    ensures r.Success? ==>
              var hydrated := Hydrate(lib, fetched);
              && r.value.id == id
              && (r.value.contact.Some? <==> |hydrated| >= 2)
              && (!merge ==> [r.value.doc] + AsList(r.value.contact) + r.value.lineage == hydrated)
              && (merge ==> [hydrated[0]] + AsList(r.value.contact) + r.value.lineage == hydrated)
              && (merge && hydrated[0].contact.Some? ==>
                    r.value.doc == hydrated[0].(contact := Some(lib.fillParents(hydrated[0].contact.value, r.value.lineage))))
              && (merge && hydrated[0].contact.None? ==> r.value.doc == hydrated[0])
  {
    match Get(fetched)
    case Failure(e) => Failure(e)
    case Success(docs) =>
      var hydrated := Hydrate(lib, docs);
      var doc := hydrated[0];
      var contact := if |hydrated| >= 2 then Some(hydrated[1]) else None;
      var lineage := if |hydrated| >= 2 then hydrated[2..] else [];
      var merged :=
        if merge && doc.contact.Some? then doc.(contact := Some(lib.fillParents(doc.contact.value, lineage))) else doc;
      assert hydrated == [doc] + AsList(contact) + lineage;
      Success(ReportModel(id, merged, contact, lineage))
  }

  /** reportSubject: the first fetched document and the rest as lineage, without hydration. An empty fetch fails with 404. */
  function ReportSubject(id: string, fetched: seq<Doc>): (r: Result<LineageModel, Error>)
    ensures r.Failure? <==> fetched == []
    ensures r.Failure? ==> r.error == NotFound
    ensures r.Success? ==> r.value.id == id && [r.value.doc] + r.value.lineage == fetched
  {
    match Get(fetched)
    case Failure(e) => Failure(e)
    case Success(docs) => Success(LineageModel(id, docs[0], docs[1..]))
  }

  /** reportSubjects: one summary per fetched document, in order, with the document's own id and its ancestors' names. */
  method ReportSubjects(fetched: seq<Doc>) returns (models: seq<SubjectSummary>)
    ensures |models| == |fetched|
    ensures forall i :: 0 <= i < |models| ==>
              && models[i].id == fetched[i].id
              && models[i].doc == fetched[i]
              && IsLineageNames(models[i].lineage, fetched[i])
  {
    models := [];
    var i := 0;
    while i < |fetched|
      invariant i <= |fetched| && |models| == i
      invariant forall j :: 0 <= j < i ==>
                  && models[j].id == fetched[j].id
                  && models[j].doc == fetched[j]
                  && IsLineageNames(models[j].lineage, fetched[j])
    {
      var doc := fetched[i];
      var names := LineageNames(doc);
      models := models + [SubjectSummary(doc.id, doc, names)];
      i := i + 1;
    }
  }
}
