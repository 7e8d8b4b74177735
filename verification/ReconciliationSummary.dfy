/** The summary of a vehicle identity: evidence is stored once at the root, and the variants refer to it
by path and index.  Expanding a summary puts the evidence back. */
module ReconciliationSummary {
  import opened Options

  datatype Json =
    | Null
    | Flag(on: bool)
    | Number(n: int)
    | Text(text: string)
    | Array(items: seq<Json>)
    | Object(fields: Record)

  type Record = map<string, Json>

  const FIELD_EVIDENCE := "field_evidence"
  const FIELD_EVIDENCE_REFS := "field_evidence_refs"
  const EVIDENCE := "evidence"
  const EVIDENCE_REFS := "evidence_refs"
  const PROVENANCE := "provenance"
  const PROVENANCE_REFS := "provenance_refs"
  const SOURCE_EVIDENCE := "source_evidence"
  const VARIANTS := "variants"
  const FAMILY := "family_candidates"
  const FAMILY_REFS := "family_candidate_refs"
  const REF_KEYS := {FIELD_EVIDENCE_REFS, EVIDENCE_REFS, PROVENANCE_REFS}

  function Get(r: Record, key: string): Option<Json> {
    if key in r then Some(r[key]) else None
  }

  function Put(r: Record, key: string, value: Option<Json>): Record {
    if value.Some? then r[key := value.value] else r
  }

  predicate Truthy(j: Json) {
    match j
    case Null => false
    case Flag(on) => on
    case Number(n) => n != 0
    case Text(t) => t != ""
    case Array(items) => items != []
    case Object(fields) => fields != map[]
  }

  predicate AllObjects(items: seq<Json>) {
    forall i | 0 <= i < |items| :: items[i].Object?
  }

  // ----- Expanding

  /** Where references lead: the provenance and the additional evidence under `data`, and the evidence
      beside it. */
  datatype Sources = Sources(provenance: Option<Json>, evidence: Option<Json>, extra: Option<Json>)

  /** The list that the path and field of a reference name; none when the reference cannot be resolved. */
  function Records(src: Sources, reference: Record): Option<Json> {
    match Get(reference, "path")
    case Some(Text(path)) =>
      if path == "data.provenance" then
        match (Get(reference, "field"), src.provenance)
        case (Some(Text(field)), Some(Object(fields))) => Get(fields, field)
        case _ => None
      else if path == "data.source_evidence" then src.extra
      else if path == "evidence" then src.evidence
      else None
    case _ => None
  }

  function Resolve(src: Sources, reference: Json): Option<Json> {
    if !reference.Object? || !(reference.fields.Keys <= {"path", "field", "index"}) then None
    else
      match (Records(src, reference.fields), Get(reference.fields, "index"))
      case (Some(Array(records)), Some(Number(index))) =>
        if 0 <= index < |records| && records[index].Object? then Some(records[index]) else None
      case _ => None
  }

  function ResolveAll(src: Sources, references: seq<Json>): (r: Option<Json>)
    ensures r.Some? ==> r.value.Array?
    decreases |references|
  {
    if references == [] then Some(Array([]))
    else
      var front := ResolveAll(src, references[..|references| - 1]);
      var last := Resolve(src, references[|references| - 1]);
      if front.None? || last.None? then None else Some(Array(front.value.items + [last.value]))
  }

  datatype Expansion<+T> = Invalid | Expanded(value: T)

  /** Absent and null references leave the field alone. */
  function ExpandList(src: Sources, references: Option<Json>): Expansion<Option<Json>> {
    match references
    case None => Expanded(None)
    case Some(Null) => Expanded(None)
    case Some(Array(items)) =>
      var resolved := ResolveAll(src, items);
      if resolved.None? then Invalid else Expanded(resolved)
    case Some(_) => Invalid
  }

  predicate AllResolve(src: Sources, fields: Record) {
    forall f | f in fields :: fields[f].Array? && ResolveAll(src, fields[f].items).Some?
  }

  function ExpandProvenance(src: Sources, references: Option<Json>): Expansion<Option<Json>> {
    match references
    case None => Expanded(None)
    case Some(Null) => Expanded(None)
    case Some(Object(fields)) =>
      if AllResolve(src, fields) then Expanded(Some(Object(map f | f in fields :: ResolveAll(src, fields[f].items).value)))
      else Invalid
    case Some(_) => Invalid
  }

  function ExpandVariant(src: Sources, v: Record): Expansion<Record> {
    var fieldEvidence := ExpandList(src, Get(v, FIELD_EVIDENCE_REFS));
    var evidence := ExpandList(src, Get(v, EVIDENCE_REFS));
    var provenance := ExpandProvenance(src, Get(v, PROVENANCE_REFS));
    if fieldEvidence.Invalid? || evidence.Invalid? || provenance.Invalid? then Invalid
    else
      Expanded(Put(Put(Put(v - REF_KEYS, FIELD_EVIDENCE, fieldEvidence.value), EVIDENCE, evidence.value),
                   PROVENANCE, provenance.value))
  }

  // ----- When a reference resolves

  /** The reference names this list of records. */
  predicate Names(src: Sources, reference: Record, records: seq<Json>) {
    && "path" in reference
    && (|| (&& reference["path"] == Text("data.provenance") && "field" in reference && reference["field"].Text?
            && src.provenance.Some? && src.provenance.value.Object? && reference["field"].text in src.provenance.value.fields
            && src.provenance.value.fields[reference["field"].text] == Array(records))
        || (reference["path"] == Text("data.source_evidence") && src.extra == Some(Array(records)))
        || (reference["path"] == Text("evidence") && src.evidence == Some(Array(records))))
  }

  /** A reference resolves to the object at its index in the list it names, and carries nothing else. */
  predicate LeadsTo(src: Sources, reference: Json, records: seq<Json>, index: nat, record: Json) {
    && reference.Object?
    && (forall key | key in reference.fields :: key == "path" || key == "field" || key == "index")
    && Names(src, reference.fields, records)
    && "index" in reference.fields && reference.fields["index"] == Number(index)
    && index < |records| && records[index] == record && record.Object?
  }

  lemma ResolvesExactly(src: Sources, reference: Json, record: Json)
    ensures Resolve(src, reference) == Some(record) <==> exists records, index :: LeadsTo(src, reference, records, index, record)
  {
    if Resolve(src, reference) == Some(record) {
      var records, index := Records(src, reference.fields).value.items, reference.fields["index"].n;
      assert Names(src, reference.fields, records);
      assert LeadsTo(src, reference, records, index, record);
    }
    forall records, index | LeadsTo(src, reference, records, index, record) ensures Resolve(src, reference) == Some(record) {
      assert Records(src, reference.fields) == Some(Array(records));
    }
  }

  lemma {:induction false} ResolvesEach(src: Sources, references: seq<Json>)
    ensures ResolveAll(src, references).Some? <==> forall i | 0 <= i < |references| :: Resolve(src, references[i]).Some?
    ensures ResolveAll(src, references).Some? ==>
              && |ResolveAll(src, references).value.items| == |references|
              && forall i | 0 <= i < |references| :: Resolve(src, references[i]) == Some(ResolveAll(src, references).value.items[i])
    decreases |references|
  {
    hide Resolve;
    if references != [] {
      var n := |references| - 1;
      ResolvesEach(src, references[..n]);
      assert forall i | 0 <= i < n :: references[..n][i] == references[i];
    }
  }

  /** A list of references is refused when it is no list or one of them does not resolve; none at all, or
      null, leaves the field alone. */
  lemma ListsExactly(src: Sources, references: Option<Json>)
    ensures var e := ExpandList(src, references);
            && (references in {None, Some(Null)} ==> e == Expanded(None))
            && (references.Some? && !references.value.Null? ==>
                  && (e.Expanded? <==> references.value.Array? && forall i | 0 <= i < |references.value.items| :: Resolve(src, references.value.items[i]).Some?)
                  && (e.Expanded? ==>
                        && e.value.Some? && e.value.value.Array? && |e.value.value.items| == |references.value.items|
                        && forall i | 0 <= i < |references.value.items| :: Resolve(src, references.value.items[i]) == Some(e.value.value.items[i])))
  {
    hide Resolve, ResolveAll;
    if references.Some? && references.value.Array? { ResolvesEach(src, references.value.items); }
  }

  lemma ProvenanceExactly(src: Sources, references: Option<Json>)
    ensures var e := ExpandProvenance(src, references);
            && (references in {None, Some(Null)} ==> e == Expanded(None))
            && (references.Some? && !references.value.Null? ==>
                  && (e.Expanded? <==> references.value.Object? && AllResolve(src, references.value.fields))
                  && (e.Expanded? ==> && e.value.Some? && e.value.value.Object? && e.value.value.fields.Keys == references.value.fields.Keys
                                      && forall f | f in references.value.fields ::
                                           ExpandList(src, Some(references.value.fields[f])) == Expanded(Some(e.value.value.fields[f]))))
    ensures references.Some? && references.value.Object? ==>
              (AllResolve(src, references.value.fields) <==>
                 forall f | f in references.value.fields ::
                   references.value.fields[f].Array? && ExpandList(src, Some(references.value.fields[f])).Expanded?)
  {
    hide Resolve, ResolveAll;
  }

  /** A variant is refused exactly when one of its three kinds of references is; the rest of it stays. */
  lemma VariantExactly(src: Sources, v: Record)
    ensures var e := ExpandVariant(src, v);
            && (e.Invalid? <==> || ExpandList(src, Get(v, FIELD_EVIDENCE_REFS)).Invalid? || ExpandList(src, Get(v, EVIDENCE_REFS)).Invalid?
                                || ExpandProvenance(src, Get(v, PROVENANCE_REFS)).Invalid?)
            && (e.Expanded? ==>
                  && (forall key | key !in REF_KEYS + {FIELD_EVIDENCE, EVIDENCE, PROVENANCE} :: Get(e.value, key) == Get(v, key))
                  && (forall key | key in REF_KEYS :: key !in e.value)
                  && Restores(v, e.value, FIELD_EVIDENCE, ExpandList(src, Get(v, FIELD_EVIDENCE_REFS)))
                  && Restores(v, e.value, EVIDENCE, ExpandList(src, Get(v, EVIDENCE_REFS)))
                  && Restores(v, e.value, PROVENANCE, ExpandProvenance(src, Get(v, PROVENANCE_REFS))))
  {
    hide ExpandList, ExpandProvenance;
    KeysDistinct();
  }

  /** The field holds what its references stand for, or what it held before. */
  predicate Restores(v: Record, u: Record, key: string, e: Expansion<Option<Json>>) {
    e.Expanded? && Get(u, key) == if e.value.Some? then e.value else Get(v, key)
  }

  // ----- What an expansion is compared with

  /** Every record is there, with everything the original record said. */
  predicate Agrees(origin: Json, got: Json) {
    && origin.Object? && got.Object?
    && forall key | key in origin.fields :: key in got.fields && got.fields[key] == origin.fields[key]
  }

  predicate ListAgrees(origins: Json, got: Json) {
    && origins.Array? && got.Array? && |origins.items| == |got.items|
    && forall i | 0 <= i < |origins.items| :: Agrees(origins.items[i], got.items[i])
  }

  predicate IsRecords(value: Option<Json>) {
    value.Some? && value.value.Array? && AllObjects(value.value.items)
  }

  predicate IsProvenance(value: Option<Json>) {
    value.Some? && value.value.Object? && forall f | f in value.value.fields :: IsRecords(Some(value.value.fields[f]))
  }

  predicate ProvenanceAgrees(origin: Json, got: Json) {
    && origin.Object? && got.Object? && origin.fields.Keys == got.fields.Keys
    && forall f | f in origin.fields :: ListAgrees(origin.fields[f], got.fields[f])
  }

  /** The same fields with the same values, except that evidence records may say more. */
  predicate SameVariant(v: Record, u: Record) {
    && v.Keys == u.Keys
    && forall key | key in v ::
         if key in {FIELD_EVIDENCE, EVIDENCE} && IsRecords(Some(v[key])) then ListAgrees(v[key], u[key])
         else if key == PROVENANCE && IsProvenance(Some(v[key])) then ProvenanceAgrees(v[key], u[key])
         else u[key] == v[key]
  }

  /** The variant carries no references of its own. */
  predicate Plain(v: Record) {
    v.Keys !! REF_KEYS
  }

  // ----- What presenting a variant yields

  /** The reference leads to a record that says all the origin said. */
  predicate Refers(src: Sources, reference: Json, origin: Json) {
    Resolve(src, reference).Some? && Agrees(origin, Resolve(src, reference).value)
  }

  predicate RefersAll(src: Sources, references: Json, origins: Json) {
    && references.Array? && origins.Array? && |references.items| == |origins.items|
    && forall i | 0 <= i < |origins.items| :: Refers(src, references.items[i], origins.items[i])
  }

  predicate RefersProvenance(src: Sources, references: Json, origin: Json) {
    && references.Object? && origin.Object? && references.fields.Keys == origin.fields.Keys
    && forall f | f in origin.fields :: RefersAll(src, references.fields[f], origin.fields[f])
  }

  predicate ListCompacted(src: Sources, v: Record, p: Record, key: string, refs: string) {
    if IsRecords(Get(v, key)) then key !in p && refs in p && RefersAll(src, p[refs], v[key])
    else Get(p, key) == Get(v, key) && Get(p, refs) == Get(v, refs)
  }

  predicate ProvenanceCompacted(src: Sources, v: Record, p: Record) {
    if IsProvenance(Get(v, PROVENANCE)) then
      PROVENANCE !in p && PROVENANCE_REFS in p && RefersProvenance(src, p[PROVENANCE_REFS], v[PROVENANCE])
    else Get(p, PROVENANCE) == Get(v, PROVENANCE) && Get(p, PROVENANCE_REFS) == Get(v, PROVENANCE_REFS)
  }

  predicate Compacted(src: Sources, v: Record, p: Record) {
    && ListCompacted(src, v, p, FIELD_EVIDENCE, FIELD_EVIDENCE_REFS)
    && ListCompacted(src, v, p, EVIDENCE, EVIDENCE_REFS)
    && ProvenanceCompacted(src, v, p)
    && (forall key | key in v && key !in REF_KEYS + {FIELD_EVIDENCE, EVIDENCE, PROVENANCE} :: key in p && p[key] == v[key])
    && (forall key | key in p && key !in REF_KEYS + {FIELD_EVIDENCE, EVIDENCE, PROVENANCE} :: key in v)
  }

  /** A list becomes references exactly when it is a list of objects, and provenance exactly when each of its
      fields is; an empty one counts as such. */
  lemma CompactedExactly(src: Sources, v: Record, p: Record)
    requires Compacted(src, v, p)
    ensures forall key | key in {FIELD_EVIDENCE, EVIDENCE} && key in v ::
              key !in p <==> v[key].Array? && forall i | 0 <= i < |v[key].items| :: v[key].items[i].Object?
    ensures PROVENANCE in v ==>
              (PROVENANCE !in p <==> v[PROVENANCE].Object? && forall f | f in v[PROVENANCE].fields ::
                 v[PROVENANCE].fields[f].Array?
                 && forall i | 0 <= i < |v[PROVENANCE].fields[f].items| :: v[PROVENANCE].fields[f].items[i].Object?)
  {
    hide RefersAll, RefersProvenance;
  }

  // ----- Expanding undoes presenting

  lemma {:induction false} ResolvesAll(src: Sources, references: seq<Json>, origins: seq<Json>)
    requires RefersAll(src, Array(references), Array(origins))
    ensures ResolveAll(src, references).Some? && ListAgrees(Array(origins), ResolveAll(src, references).value)
    decreases |references|
  {
    hide Resolve, Agrees;
    if references != [] {
      var n := |references| - 1;
      assert Refers(src, references[n], origins[n]);
      assert forall i | 0 <= i < n :: Refers(src, references[..n][i], origins[..n][i]) == Refers(src, references[i], origins[i]);
      ResolvesAll(src, references[..n], origins[..n]);
    }
  }

  lemma ResolvesProvenance(src: Sources, references: Record, origins: Record)
    requires RefersProvenance(src, Object(references), Object(origins))
    ensures AllResolve(src, references)
    ensures ProvenanceAgrees(Object(origins), ExpandProvenance(src, Some(Object(references))).value.value)
  {
    forall f | f in origins
      ensures f in references && references[f].Array? && ResolveAll(src, references[f].items).Some?
              && ListAgrees(origins[f], ResolveAll(src, references[f].items).value)
    {
      assert RefersAll(src, references[f], origins[f]);
      ResolvesAll(src, references[f].items, origins[f].items);
    }
    assert forall f :: f in references <==> f in origins;
  }

  lemma ListBack(src: Sources, v: Record, p: Record, key: string, refs: string)
    requires ListCompacted(src, v, p, key, refs) && refs !in v
    ensures ExpandList(src, Get(p, refs)).Expanded?
    ensures var e := ExpandList(src, Get(p, refs)).value;
            if IsRecords(Get(v, key)) then key in v && key !in p && e.Some? && ListAgrees(v[key], e.value)
            else e.None? && Get(p, key) == Get(v, key) && refs !in p
  {
    hide ListAgrees, ResolveAll, Refers;
    if IsRecords(Get(v, key)) { ResolvesAll(src, p[refs].items, v[key].items); }
  }

  lemma ProvenanceBack(src: Sources, v: Record, p: Record)
    requires ProvenanceCompacted(src, v, p) && PROVENANCE_REFS !in v
    ensures ExpandProvenance(src, Get(p, PROVENANCE_REFS)).Expanded?
    ensures var e := ExpandProvenance(src, Get(p, PROVENANCE_REFS)).value;
            if IsProvenance(Get(v, PROVENANCE)) then PROVENANCE in v && PROVENANCE !in p && e.Some? && ProvenanceAgrees(v[PROVENANCE], e.value)
            else e.None? && Get(p, PROVENANCE) == Get(v, PROVENANCE) && PROVENANCE_REFS !in p
  {
    hide ProvenanceAgrees, ResolveAll, RefersAll;
    if IsProvenance(Get(v, PROVENANCE)) { ResolvesProvenance(src, p[PROVENANCE_REFS].fields, v[PROVENANCE].fields); }
  }

  lemma KeysDistinct()
    ensures |{FIELD_EVIDENCE, FIELD_EVIDENCE_REFS, EVIDENCE, EVIDENCE_REFS, PROVENANCE, PROVENANCE_REFS}| == 6
    ensures FIELD_EVIDENCE != EVIDENCE && FIELD_EVIDENCE != PROVENANCE && EVIDENCE != PROVENANCE
    ensures FIELD_EVIDENCE !in REF_KEYS && EVIDENCE !in REF_KEYS && PROVENANCE !in REF_KEYS
  {
  }

  /** Expanding a presented variant gives the variant back exactly when it carried no references of its
      own. */
  lemma ExpandsBack(src: Sources, v: Record, p: Record)
    requires Compacted(src, v, p)
    ensures Plain(v) <==> ExpandVariant(src, p).Expanded? && SameVariant(v, ExpandVariant(src, p).value)
  {
    hide ListCompacted, ProvenanceCompacted, ExpandList, ExpandProvenance, ListAgrees, ProvenanceAgrees, IsProvenance, IsRecords;
    KeysDistinct();
    if Plain(v) {
      ListBack(src, v, p, FIELD_EVIDENCE, FIELD_EVIDENCE_REFS);
      ListBack(src, v, p, EVIDENCE, EVIDENCE_REFS);
      ProvenanceBack(src, v, p);
      var u := ExpandVariant(src, p).value;
      assert u.Keys == v.Keys;
    } else if ExpandVariant(src, p).Expanded? {
      var u := ExpandVariant(src, p).value;
      assert u.Keys !! REF_KEYS;
    }
  }

  // ----- More additional evidence makes no reference lead elsewhere

  ghost predicate Grows(src: Sources, src': Sources) {
    && src'.provenance == src.provenance && src'.evidence == src.evidence
    && (src.extra.Some? ==> src.extra.value.Array? && src'.extra.Some? && src'.extra.value.Array?
                            && src.extra.value.items <= src'.extra.value.items)
  }

  lemma ReferenceStays(src: Sources, src': Sources, reference: Json)
    requires Grows(src, src') && Resolve(src, reference).Some?
    ensures Resolve(src', reference) == Resolve(src, reference)
  {
  }

  lemma RefersAllStays(src: Sources, src': Sources, references: Json, origins: Json)
    requires Grows(src, src') && RefersAll(src, references, origins)
    ensures RefersAll(src', references, origins)
  {
    hide Resolve, Agrees, Grows;
    forall i | 0 <= i < |origins.items| ensures Refers(src', references.items[i], origins.items[i]) {
      assert Refers(src, references.items[i], origins.items[i]);
      ReferenceStays(src, src', references.items[i]);
    }
  }

  lemma CompactedStays(src: Sources, src': Sources, v: Record, p: Record)
    requires Grows(src, src') && Compacted(src, v, p)
    ensures Compacted(src', v, p)
  {
    hide Grows, RefersAll, IsRecords;
    ListStays(src, src', v, p, FIELD_EVIDENCE, FIELD_EVIDENCE_REFS);
    ListStays(src, src', v, p, EVIDENCE, EVIDENCE_REFS);
    if IsProvenance(Get(v, PROVENANCE)) {
      var references, origins := p[PROVENANCE_REFS], v[PROVENANCE];
      forall f | f in origins.fields ensures RefersAll(src', references.fields[f], origins.fields[f]) {
        RefersAllStays(src, src', references.fields[f], origins.fields[f]);
      }
    }
  }

  lemma ListStays(src: Sources, src': Sources, v: Record, p: Record, key: string, refs: string)
    requires Grows(src, src') && ListCompacted(src, v, p, key, refs)
    ensures ListCompacted(src', v, p, key, refs)
  {
    hide Grows, RefersAll;
    if IsRecords(Get(v, key)) { RefersAllStays(src, src', p[refs], v[key]); }
  }

  // ----- Presenting

  datatype Candidate = Candidate(stored: Record, reference: Json)

  function ReferenceTo(path: string, field: Option<string>, index: nat): Json {
    Object(Put(map["path" := Text(path), "index" := Number(index)], "field", if field.Some? then Some(Text(field.value)) else None))
  }

  /** A stored record stands for an origin that it equals, or whose field it has and whose every entry
      it repeats. */
  predicate StandsFor(stored: Record, origin: Record) {
    || stored == origin
    || (&& Get(origin, "field").Some? && Truthy(origin["field"]) && Get(stored, "field") == Get(origin, "field")
        && forall key | key in origin :: key in stored && stored[key] == origin[key])
  }

  /** The values that count as nothing: null, false, zero, and the empty text, list and object. */
  lemma TruthyExactly(j: Json)
    ensures Truthy(j) <==> j !in {Null, Flag(false), Number(0), Text(""), Array([]), Object(map[])}
  {
  }

  /** An equal record always serves; another one only when the origin names its field and the record says
      all that the origin says. */
  lemma StandsExactly(stored: Record, origin: Record)
    ensures StandsFor(stored, origin) <==>
              || stored == origin
              || (&& "field" in origin && origin["field"] !in {Null, Flag(false), Number(0), Text(""), Array([]), Object(map[])}
                  && Agrees(Object(origin), Object(stored)))
  {
    if "field" in origin { TruthyExactly(origin["field"]); }
  }

  /** The records that can be referred to, and those that had to be added for the variants. */
  class Presenter {
    const provenance: Option<Json>
    const evidence: Option<Json>
    var candidates: seq<Candidate>
    var additional: seq<Json>

    ghost function Source(): Sources
      reads this
    {
      Sources(provenance, evidence, if additional == [] then None else Some(Array(additional)))
    }

    /** No additional record repeats another one. */
    ghost predicate Valid()
      reads this
    {
      && AllObjects(additional)
      && NoRepeats(additional)
      && AllStored(candidates, additional)
      && forall c | c in candidates :: Resolve(Source(), c.reference) == Some(Object(c.stored))
    }

    constructor (provenance: Option<Json>, evidence: Option<Json>)
      requires provenance.Some? ==> IsProvenance(provenance)
      requires evidence.Some? ==> IsRecords(evidence)
      ensures Valid() && additional == [] && this.provenance == provenance && this.evidence == evidence
    {
      this.provenance, this.evidence := provenance, evidence;
      candidates, additional := [], [];
      new;
      if provenance.Some? {
        var fields := provenance.value.fields.Keys;
        while fields != {}
          invariant fields <= provenance.value.fields.Keys
          invariant Valid() && additional == []
          decreases fields
        {
          var field :| field in fields;
          fields := fields - {field};
          var origins := provenance.value.fields[field].items;
          for index := 0 to |origins|
            invariant Valid() && additional == []
          {
            var reference := ReferenceTo("data.provenance", Some(field), index);
            assert Resolve(Source(), reference) == Some(origins[index]);
            candidates := candidates + [Candidate(origins[index].fields, reference)];
          }
        }
      }
      if evidence.Some? {
        var origins := evidence.value.items;
        for index := 0 to |origins|
          invariant Valid() && additional == []
        {
          var reference := ReferenceTo("evidence", None, index);
          assert Resolve(Source(), reference) == Some(origins[index]);
          candidates := candidates + [Candidate(origins[index].fields, reference)];
        }
      }
    }

    /** The first record that stands for the origin serves; only when none does, the origin is added. */
    method OriginReference(origin: Record) returns (reference: Json)
      requires Valid()
      modifies this`candidates, this`additional
      ensures Valid() && Grows(old(Source()), Source())
      ensures Refers(Source(), reference, Object(origin))
      ensures forall i | FirstFor(old(candidates), origin, i) ::
                reference == old(candidates)[i].reference && additional == old(additional) && candidates == old(candidates)
      ensures (forall i | 0 <= i < |old(candidates)| :: !StandsFor(old(candidates)[i].stored, origin)) ==>
                && additional == old(additional) + [Object(origin)]
                && reference == ReferenceTo("data.source_evidence", None, |old(additional)|)
    {
      hide Resolve;
      for i := 0 to |candidates|
        invariant forall k | 0 <= k < i :: !StandsFor(candidates[k].stored, origin)
      {
        if StandsFor(candidates[i].stored, origin) {
          assert candidates[i] in candidates;
          return candidates[i].reference;
        }
      }
      reference := ReferenceTo("data.source_evidence", None, |additional|);
      ghost var before := Source();
      NotStoredYet(candidates, additional, origin);
      StoredStays(candidates, additional, origin, reference);
      additional := additional + [Object(origin)];
      candidates := candidates + [Candidate(origin, reference)];
      LastAdded(Source(), additional);
      forall c | c in old(candidates) ensures Resolve(Source(), c.reference) == Some(Object(c.stored)) {
        ReferenceStays(before, Source(), c.reference);
      }
    }

    /** Replaces a list of records by references to them. */
    method CompactList(v: Record, p: Record, key: string, refs: string) returns (r: Record)
      requires Valid() && Get(p, key) == Get(v, key) && Get(p, refs) == Get(v, refs) && key != refs
      modifies this`candidates, this`additional
      ensures Valid() && Grows(old(Source()), Source())
      ensures ListCompacted(Source(), v, r, key, refs)
      ensures forall other | other != key && other != refs :: Get(r, other) == Get(p, other)
    {
      hide Resolve, StandsFor;
      if !IsRecords(Get(v, key)) { return p; }
      var references := ReferenceAll(p[key].items);
      r := (p - {key})[refs := references];
    }

    method ReferenceAll(origins: seq<Json>) returns (references: Json)
      requires Valid() && AllObjects(origins)
      modifies this`candidates, this`additional
      ensures Valid() && Grows(old(Source()), Source())
      ensures RefersAll(Source(), references, Array(origins))
    {
      hide Resolve, StandsFor, Agrees;
      var items := [];
      for i := 0 to |origins|
        invariant Valid() && Grows(old(Source()), Source())
        invariant |items| == i && RefersAll(Source(), Array(items), Array(origins[..i]))
      {
        ghost var before := Source();
        var reference := OriginReference(origins[i].fields);
        RefersAllStays(before, Source(), Array(items), Array(origins[..i]));
        items := items + [reference];
        assert forall k | 0 <= k < i :: origins[..i + 1][k] == origins[..i][k];
      }
      assert origins[..|origins|] == origins;
      references := Array(items);
    }

    method CompactProvenance(v: Record, p: Record) returns (r: Record)
      requires Valid() && Get(p, PROVENANCE) == Get(v, PROVENANCE) && Get(p, PROVENANCE_REFS) == Get(v, PROVENANCE_REFS)
      modifies this`candidates, this`additional
      ensures Valid() && Grows(old(Source()), Source())
      ensures ProvenanceCompacted(Source(), v, r)
      ensures forall other | other != PROVENANCE && other != PROVENANCE_REFS :: Get(r, other) == Get(p, other)
    {
      hide Resolve, StandsFor, RefersAll;
      if !IsProvenance(Get(v, PROVENANCE)) { return p; }
      var origins := p[PROVENANCE].fields;
      var references: Record := map[];
      var fields := origins.Keys;
      while fields != {}
        invariant fields <= origins.Keys && references.Keys == origins.Keys - fields
        invariant Valid() && Grows(old(Source()), Source())
        invariant forall f | f in references :: RefersAll(Source(), references[f], origins[f])
        decreases fields
      {
        var field :| field in fields;
        fields := fields - {field};
        ghost var before := Source();
        var all := ReferenceAll(origins[field].items);
        forall f | f in references ensures RefersAll(Source(), references[f], origins[f]) {
          RefersAllStays(before, Source(), references[f], origins[f]);
        }
        references := references[field := all];
      }
      r := (p - {PROVENANCE})[PROVENANCE_REFS := Object(references)];
    }

    method CompactVariant(variant: Record) returns (projected: Record)
      requires Valid()
      modifies this`candidates, this`additional
      ensures Valid() && Grows(old(Source()), Source())
      ensures Compacted(Source(), variant, projected)
    {
      hide Resolve, StandsFor, ListCompacted, ProvenanceCompacted;
      KeysDistinct();
      var first := CompactList(variant, variant, FIELD_EVIDENCE, FIELD_EVIDENCE_REFS);
      ghost var source1 := Source();
      var second := CompactList(variant, first, EVIDENCE, EVIDENCE_REFS);
      ghost var source2 := Source();
      projected := CompactProvenance(variant, second);
      ListStays(source1, source2, variant, first, FIELD_EVIDENCE, FIELD_EVIDENCE_REFS);
      ListStays(source2, Source(), variant, first, FIELD_EVIDENCE, FIELD_EVIDENCE_REFS);
      ListStays(source2, Source(), variant, second, EVIDENCE, EVIDENCE_REFS);
      ListSame(Source(), variant, first, projected, FIELD_EVIDENCE, FIELD_EVIDENCE_REFS);
      ListSame(Source(), variant, second, projected, EVIDENCE, EVIDENCE_REFS);
      OthersSame(variant, projected);
    }
  }

  predicate NoRepeats(records: seq<Json>) {
    forall i, k | 0 <= i < k < |records| :: records[i] != records[k]
  }

  predicate FirstFor(candidates: seq<Candidate>, origin: Record, i: int) {
    && 0 <= i < |candidates| && StandsFor(candidates[i].stored, origin)
    && forall k | 0 <= k < i :: !StandsFor(candidates[k].stored, origin)
  }

  predicate IsStored(candidates: seq<Candidate>, record: Json) {
    exists i :: 0 <= i < |candidates| && Object(candidates[i].stored) == record
  }

  predicate AllStored(candidates: seq<Candidate>, records: seq<Json>) {
    forall i | 0 <= i < |records| :: IsStored(candidates, records[i])
  }

  lemma NotStoredYet(candidates: seq<Candidate>, additional: seq<Json>, origin: Record)
    requires forall i | 0 <= i < |candidates| :: !StandsFor(candidates[i].stored, origin)
    requires AllStored(candidates, additional)
    ensures Object(origin) !in additional
  {
    forall i | 0 <= i < |additional| ensures additional[i] != Object(origin) {
      assert IsStored(candidates, additional[i]);
      var c :| 0 <= c < |candidates| && Object(candidates[c].stored) == additional[i];
      assert !StandsFor(candidates[c].stored, origin);
    }
  }

  lemma StoredStays(candidates: seq<Candidate>, additional: seq<Json>, origin: Record, reference: Json)
    requires AllStored(candidates, additional)
    ensures AllStored(candidates + [Candidate(origin, reference)], additional + [Object(origin)])
  {
    var more, records := candidates + [Candidate(origin, reference)], additional + [Object(origin)];
    forall i | 0 <= i < |records| ensures IsStored(more, records[i]) {
      if i < |additional| {
        assert IsStored(candidates, additional[i]);
        var c :| 0 <= c < |candidates| && Object(candidates[c].stored) == additional[i];
        assert more[c] == candidates[c];
      } else {
        assert Object(more[|candidates|].stored) == records[i];
      }
    }
  }

  lemma ListSame(src: Sources, v: Record, p: Record, p': Record, key: string, refs: string)
    requires ListCompacted(src, v, p, key, refs) && Get(p', key) == Get(p, key) && Get(p', refs) == Get(p, refs)
    ensures ListCompacted(src, v, p', key, refs)
  {
  }

  lemma OthersSame(v: Record, p: Record)
    requires forall key | key !in REF_KEYS + {FIELD_EVIDENCE, EVIDENCE, PROVENANCE} :: Get(p, key) == Get(v, key)
    ensures forall key | key in v && key !in REF_KEYS + {FIELD_EVIDENCE, EVIDENCE, PROVENANCE} :: key in p && p[key] == v[key]
    ensures forall key | key in p && key !in REF_KEYS + {FIELD_EVIDENCE, EVIDENCE, PROVENANCE} :: key in v
  {
    forall key | key !in REF_KEYS + {FIELD_EVIDENCE, EVIDENCE, PROVENANCE} ensures (key in p <==> key in v) && (key in v ==> p[key] == v[key]) {
      assert Get(p, key) == Get(v, key);
    }
  }

  lemma LastAdded(src: Sources, additional: seq<Json>)
    requires additional != [] && src.extra == Some(Array(additional)) && additional[|additional| - 1].Object?
    ensures Resolve(src, ReferenceTo("data.source_evidence", None, |additional| - 1)) == Some(additional[|additional| - 1])
  {
  }

  // ----- Whole documents

  function DataOf(row: Record): Record {
    if "data" in row && row["data"].Object? then row["data"].fields else row
  }

  function SourcesOf(row: Record): Sources {
    Sources(Get(DataOf(row), PROVENANCE), Get(row, EVIDENCE), Get(DataOf(row), SOURCE_EVIDENCE))
  }

  function ExpandAll(src: Sources, variants: seq<Json>): (r: Expansion<seq<Json>>)
    requires AllObjects(variants)
    ensures r.Expanded? <==> forall i | 0 <= i < |variants| :: ExpandVariant(src, variants[i].fields).Expanded?
    ensures r.Expanded? ==> |r.value| == |variants|
    ensures r.Expanded? ==> forall i | 0 <= i < |variants| :: r.value[i] == Object(ExpandVariant(src, variants[i].fields).value)
    decreases |variants|
  {
    if variants == [] then Expanded([])
    else
      var n := |variants| - 1;
      var front := ExpandAll(src, variants[..n]);
      var last := ExpandVariant(src, variants[n].fields);
      if front.Invalid? || last.Invalid? then Invalid else Expanded(front.value + [Object(last.value)])
  }

  predicate IndicesInto(indices: Json, count: nat) {
    indices.Array? && forall i | 0 <= i < |indices.items| :: indices.items[i].Number? && 0 <= indices.items[i].n < count
  }

  /** What a summary stands for; any other row stands for itself. */
  function Expand(row: Record): Expansion<Record> {
    var data := DataOf(row);
    if FAMILY_REFS !in data then Expanded(row)
    else if !IsRecords(Get(data, VARIANTS)) then Invalid
    else
      var variants := ExpandAll(SourcesOf(row), data[VARIANTS].items);
      var indices := data[FAMILY_REFS];
      if variants.Invalid? || !IndicesInto(indices, |variants.value|) then Invalid
      else
        var family := seq(|indices.items|, i requires 0 <= i < |indices.items| => variants.value[indices.items[i].n]);
        var data' := data[VARIANTS := Array(variants.value)][FAMILY := Array(family)] - {FAMILY_REFS};
        Expanded(if "data" in row && row["data"].Object? then row["data" := Object(data')] else data')
  }

  /** A row without family references stands for itself.  A summary is refused exactly when its variants are
      no list of objects, one of them is refused, or a family reference is no place among them; otherwise the
      variants are expanded in order, the family candidates are those referred to, and the rest stays. */
  lemma ExpandExactly(row: Record)
    ensures var data := if "data" in row && row["data"].Object? then row["data"].fields else row;
            && (FAMILY_REFS !in data ==> Expand(row) == Expanded(row))
            && (FAMILY_REFS in data ==> (Expand(row).Expanded? <==> Expandable(row, data)))
            && (FAMILY_REFS in data && Expand(row).Expanded? ==>
                  && (("data" in row && row["data"].Object?) ==>
                        && Expand(row).value == row["data" := Object(DataOf(Expand(row).value))]
                        && ExpandedFrom(row, data, DataOf(Expand(row).value)))
                  && (!("data" in row && row["data"].Object?) ==> ExpandedFrom(row, data, Expand(row).value)))
  {
    hide ExpandVariant, IsRecords;
    var data := DataOf(row);
    if FAMILY_REFS in data && Get(data, VARIANTS).Some? && IsRecords(Get(data, VARIANTS)) { ListedVariants(data); }
    RecordsMeans(Get(data, VARIANTS));
  }

  lemma RecordsMeans(value: Option<Json>)
    ensures IsRecords(value) <==> value.Some? && value.value.Array? && forall i | 0 <= i < |value.value.items| :: value.value.items[i].Object?
  {
  }

  predicate Expandable(row: Record, data: Record) {
    && VARIANTS in data && data[VARIANTS].Array?
    && (forall i | 0 <= i < |data[VARIANTS].items| ::
          data[VARIANTS].items[i].Object? && ExpandVariant(SourcesOf(row), data[VARIANTS].items[i].fields).Expanded?)
    && FAMILY_REFS in data && data[FAMILY_REFS].Array?
    && forall i | 0 <= i < |data[FAMILY_REFS].items| ::
         data[FAMILY_REFS].items[i].Number? && 0 <= data[FAMILY_REFS].items[i].n < |data[VARIANTS].items|
  }

  ghost predicate ExpandedFrom(row: Record, data: Record, data': Record)
    requires Expandable(row, data)
  {
    && FAMILY_REFS !in data'
    && VARIANTS in data' && data'[VARIANTS].Array? && |data'[VARIANTS].items| == |data[VARIANTS].items|
    && (forall i | 0 <= i < |data[VARIANTS].items| ::
          data'[VARIANTS].items[i] == Object(ExpandVariant(SourcesOf(row), data[VARIANTS].items[i].fields).value))
    && FAMILY in data' && data'[FAMILY].Array? && |data'[FAMILY].items| == |data[FAMILY_REFS].items|
    && (forall i | 0 <= i < |data[FAMILY_REFS].items| :: data'[FAMILY].items[i] == data'[VARIANTS].items[data[FAMILY_REFS].items[i].n])
    && forall key | key !in {VARIANTS, FAMILY, FAMILY_REFS} :: Get(data', key) == Get(data, key)
  }

  method ExpandSummary(row: Record) returns (r: Expansion<Record>)
    ensures r == Expand(row)
  {
    hide ExpandVariant, IsRecords;
    var data := DataOf(row);
    if FAMILY_REFS !in data { return Expanded(row); }
    if !IsRecords(Get(data, VARIANTS)) { return Invalid; }
    ListedVariants(data);
    var variants, src := data[VARIANTS].items, SourcesOf(row);
    var expanded := [];
    for i := 0 to |variants|
      invariant ExpandAll(src, variants[..i]) == Expanded(expanded)
    {
      var item := ExpandVariant(src, variants[i].fields);
      if item.Invalid? {
        assert !ExpandAll(src, variants).Expanded?;
        return Invalid;
      }
      expanded := expanded + [Object(item.value)];
      assert variants[..i + 1][..i] == variants[..i];
    }
    assert variants[..|variants|] == variants;
    var indices := data[FAMILY_REFS];
    if !IndicesInto(indices, |expanded|) { return Invalid; }
    var family := seq(|indices.items|, i requires 0 <= i < |indices.items| => expanded[indices.items[i].n]);
    data := data[VARIANTS := Array(expanded)][FAMILY := Array(family)] - {FAMILY_REFS};
    r := Expanded(if "data" in row && row["data"].Object? then row["data" := Object(data)] else data);
  }

  lemma ListedVariants(data: Record)
    requires IsRecords(Get(data, VARIANTS))
    ensures VARIANTS in data && data[VARIANTS].Array? && AllObjects(data[VARIANTS].items)
  {
  }

  /** The shape every response of the reconciliation has. */
  predicate Presentable(response: Record) {
    && "data" in response && response["data"].Object?
    && var data := response["data"].fields;
    && IsRecords(Get(data, VARIANTS))
    && (PROVENANCE in data ==> IsProvenance(Get(data, PROVENANCE)))
    && (EVIDENCE in response ==> IsRecords(Get(response, EVIDENCE)))
  }

  function VariantsOf(response: Record): seq<Json>
    requires Presentable(response)
  {
    response["data"].fields[VARIANTS].items
  }

  const PRESENTATION := Object(map[
    "detail" := Text("summary"),
    "family_candidates_ref" := Text("data.variants"),
    "origin_references" := Text("path, optional field, index")])

  /** The summary that keeps the variants as `projected` and the additional evidence once. */
  function SummaryOf(response: Record, projected: seq<Json>, additional: seq<Json>): Record
    requires Presentable(response)
  {
    var indices := seq(|projected|, i => Number(i));
    var data := (response["data"].fields[VARIANTS := Array(projected)] - {FAMILY})[FAMILY_REFS := Array(indices)];
    response["data" := Object(Put(data, SOURCE_EVIDENCE, if additional == [] then None else Some(Array(additional))))]
            ["presentation" := PRESENTATION]
  }

  /** A summary says that it is one, drops the family candidates and counts the variants instead, keeps the
      additional evidence if there is any, and leaves the rest of the response as it was. */
  lemma SummaryTells(response: Record, projected: seq<Json>, additional: seq<Json>)
    requires Presentable(response)
    ensures var summary := SummaryOf(response, projected, additional);
            && "presentation" in summary && summary["presentation"].Object?
            && Get(summary["presentation"].fields, "detail") == Some(Text("summary"))
            && Get(summary["presentation"].fields, "family_candidates_ref") == Some(Text("data.variants"))
            && (forall key | key !in {"data", "presentation"} :: Get(summary, key) == Get(response, key))
            && "data" in summary && summary["data"].Object?
            && var data, data' := response["data"].fields, summary["data"].fields;
               && FAMILY !in data' && Get(data', VARIANTS) == Some(Array(projected))
               && FAMILY_REFS in data' && data'[FAMILY_REFS].Array? && |data'[FAMILY_REFS].items| == |projected|
               && (forall i | 0 <= i < |projected| :: data'[FAMILY_REFS].items[i] == Number(i))
               && Get(data', SOURCE_EVIDENCE) == (if additional == [] then Get(data, SOURCE_EVIDENCE) else Some(Array(additional)))
               && forall key | key !in {VARIANTS, FAMILY, FAMILY_REFS, SOURCE_EVIDENCE} :: Get(data', key) == Get(data, key)
  {
    hide IsRecords, IsProvenance;
  }

  /** The expansion has every variant in order, the family candidates are the variants again, and the
      rest of the response is as it was. */
  ghost predicate GivesBack(response: Record, r: Expansion<Record>)
    requires Presentable(response)
  {
    && r.Expanded?
    && "data" in r.value && r.value["data"].Object?
    && var data, data' := response["data"].fields, r.value["data"].fields;
    && IsRecords(Get(data', VARIANTS)) && Get(data', FAMILY) == Get(data', VARIANTS)
    && |data'[VARIANTS].items| == |data[VARIANTS].items|
    && (forall i | 0 <= i < |data[VARIANTS].items| :: SameVariant(data[VARIANTS].items[i].fields, data'[VARIANTS].items[i].fields))
    && (forall key | key !in {VARIANTS, FAMILY, FAMILY_REFS, SOURCE_EVIDENCE} :: Get(data', key) == Get(data, key))
    && (forall key | key !in {"data", "presentation"} :: Get(r.value, key) == Get(response, key))
  }

  /** Every reference of the summary leads to a record that says what the original said, evidence is added
      once, and expanding the summary gives the response back exactly when no variant carried references of its own. */
  method PresentSummary(response: Record) returns (summary: Record)
    requires Presentable(response)
    ensures Presentable(summary) && |VariantsOf(summary)| == |VariantsOf(response)|
    ensures forall i | 0 <= i < |VariantsOf(response)| ::
              Compacted(SourcesOf(summary), VariantsOf(response)[i].fields, VariantsOf(summary)[i].fields)
    ensures GivesBack(response, Expand(summary)) <==> forall i | 0 <= i < |VariantsOf(response)| :: Plain(VariantsOf(response)[i].fields)
    ensures exists additional :: summary == SummaryOf(response, VariantsOf(summary), additional) && NoRepeats(additional)
  {
    hide Compacted, Resolve, Expand, GivesBack, SummaryOf, IsRecords, IsProvenance;
    var data := response["data"].fields;
    ListedVariants(data);
    var variants := data[VARIANTS].items;
    var presenter := new Presenter(Get(data, PROVENANCE), Get(response, EVIDENCE));
    var projected := [];
    for i := 0 to |variants|
      invariant presenter.Valid() && fresh(presenter)
      invariant |projected| == i && AllObjects(projected)
      invariant forall k | 0 <= k < i :: Compacted(presenter.Source(), variants[k].fields, projected[k].fields)
    {
      ghost var before := presenter.Source();
      var compact := presenter.CompactVariant(variants[i].fields);
      forall k | 0 <= k < i ensures Compacted(presenter.Source(), variants[k].fields, projected[k].fields) {
        CompactedStays(before, presenter.Source(), variants[k].fields, projected[k].fields);
      }
      projected := projected + [Object(compact)];
    }
    summary := SummaryOf(response, projected, presenter.additional);
    SummaryShape(response, projected, presenter.additional, presenter.Source());
    forall i | 0 <= i < |variants| ensures Compacted(SourcesOf(summary), variants[i].fields, projected[i].fields) {
      CompactedStays(presenter.Source(), SourcesOf(summary), variants[i].fields, projected[i].fields);
    }
    SummaryExpands(response, projected, presenter.additional);
  }

  lemma SummaryShape(response: Record, projected: seq<Json>, additional: seq<Json>, src: Sources)
    requires Presentable(response) && AllObjects(projected)
    requires src == Sources(Get(response["data"].fields, PROVENANCE), Get(response, EVIDENCE),
                            if additional == [] then None else Some(Array(additional)))
    ensures var summary := SummaryOf(response, projected, additional);
            Presentable(summary) && VariantsOf(summary) == projected && Grows(src, SourcesOf(summary))
  {
  }

  /** The expansion of a summary, when its variants expand to `expanded`. */
  function Restored(response: Record, additional: seq<Json>, expanded: seq<Json>): Record
    requires Presentable(response)
  {
    var summary := SummaryOf(response, expanded, additional);
    var data := summary["data"].fields;
    summary["data" := Object(data[VARIANTS := Array(expanded)][FAMILY := Array(expanded)] - {FAMILY_REFS})]
  }

  /** A summary of other variants differs from this one in the variants only. */
  lemma OtherVariants(response: Record, projected: seq<Json>, additional: seq<Json>, expanded: seq<Json>)
    requires Presentable(response) && |expanded| == |projected|
    ensures var summary, other := SummaryOf(response, projected, additional), SummaryOf(response, expanded, additional);
            && summary["data"].fields[VARIANTS := Array(expanded)] == other["data"].fields
            && Restored(response, additional, expanded)
               == summary["data" := Object(other["data"].fields[VARIANTS := Array(expanded)][FAMILY := Array(expanded)] - {FAMILY_REFS})]
  {
    hide IsProvenance, IsRecords;
    var summary, other := SummaryOf(response, projected, additional), SummaryOf(response, expanded, additional);
    var a, b := summary["data"].fields[VARIANTS := Array(expanded)], other["data"].fields;
    assert seq(|projected|, i => Number(i)) == seq(|expanded|, i => Number(i));
    assert a.Keys == b.Keys;
    assert forall key | key in a :: a[key] == b[key];
  }

  lemma SummaryFields(response: Record, projected: seq<Json>, additional: seq<Json>)
    requires Presentable(response)
    ensures var summary := SummaryOf(response, projected, additional);
            && "data" in summary && summary["data"].Object? && DataOf(summary) == summary["data"].fields
            && Get(DataOf(summary), VARIANTS) == Some(Array(projected))
            && Get(DataOf(summary), FAMILY_REFS) == Some(Array(seq(|projected|, i => Number(i))))
  {
    hide IsProvenance, IsRecords;
  }

  lemma SummaryExpandsTo(response: Record, projected: seq<Json>, additional: seq<Json>)
    requires Presentable(response) && AllObjects(projected)
    ensures var summary := SummaryOf(response, projected, additional);
            var all := ExpandAll(SourcesOf(summary), projected);
            Expand(summary) == if all.Invalid? then Invalid else Expanded(Restored(response, additional, all.value))
  {
    hide ExpandVariant, IsProvenance, SummaryOf, SourcesOf;
    SummaryFields(response, projected, additional);
    var summary := SummaryOf(response, projected, additional);
    var all := ExpandAll(SourcesOf(summary), projected);
    var indices := DataOf(summary)[FAMILY_REFS];
    if all.Expanded? {
      assert IndicesInto(indices, |all.value|);
      assert seq(|indices.items|, i requires 0 <= i < |indices.items| => all.value[indices.items[i].n]) == all.value;
      SummaryFields(response, all.value, additional);
      OtherVariants(response, projected, additional, all.value);
      var other := SummaryOf(response, all.value, additional)["data"].fields;
      assert other[VARIANTS := Array(all.value)] == other;
    }
  }

  lemma RestoredGivesBack(response: Record, additional: seq<Json>, expanded: seq<Json>)
    requires Presentable(response) && AllObjects(expanded) && |expanded| == |VariantsOf(response)|
    ensures GivesBack(response, Expanded(Restored(response, additional, expanded)))
            <==> forall i | 0 <= i < |expanded| :: SameVariant(VariantsOf(response)[i].fields, expanded[i].fields)
  {
    hide SameVariant, IsProvenance;
    var r := Restored(response, additional, expanded);
    var data, data' := response["data"].fields, r["data"].fields;
    assert Get(data', VARIANTS) == Some(Array(expanded)) && Get(data', FAMILY) == Some(Array(expanded));
    forall key | key !in {VARIANTS, FAMILY, FAMILY_REFS, SOURCE_EVIDENCE} ensures Get(data', key) == Get(data, key) { }
    forall key | key !in {"data", "presentation"} ensures Get(r, key) == Get(response, key) { }
  }

  lemma SummaryExpands(response: Record, projected: seq<Json>, additional: seq<Json>)
    requires Presentable(response) && AllObjects(projected) && |projected| == |VariantsOf(response)|
    requires var summary := SummaryOf(response, projected, additional);
             forall i | 0 <= i < |projected| :: Compacted(SourcesOf(summary), VariantsOf(response)[i].fields, projected[i].fields)
    ensures GivesBack(response, Expand(SummaryOf(response, projected, additional)))
            <==> forall i | 0 <= i < |VariantsOf(response)| :: Plain(VariantsOf(response)[i].fields)
  {
    hide ExpandVariant, SameVariant, Plain, Compacted, SummaryOf, SourcesOf, Restored, GivesBack, Expand, IsRecords;
    ListedVariants(response["data"].fields);
    var variants := VariantsOf(response);
    var src := SourcesOf(SummaryOf(response, projected, additional));
    forall i | 0 <= i < |projected|
      ensures Plain(variants[i].fields) <==>
                ExpandVariant(src, projected[i].fields).Expanded? && SameVariant(variants[i].fields, ExpandVariant(src, projected[i].fields).value)
    {
      ExpandsBack(src, variants[i].fields, projected[i].fields);
    }
    SummaryExpandsTo(response, projected, additional);
    var all := ExpandAll(src, projected);
    if all.Expanded? {
      RestoredGivesBack(response, additional, all.value);
    } else {
      InvalidGivesNothing(response);
    }
  }

  lemma InvalidGivesNothing(response: Record)
    requires Presentable(response)
    ensures !GivesBack(response, Invalid)
  {
  }

  // ----- A variant with references of its own

  const OWN_REFERENCES: Record := map[EVIDENCE_REFS := Array([])]

  const WITH_REFERENCES: Record := map["data" := Object(map[VARIANTS := Array([Object(OWN_REFERENCES)])])]

  /** A variant that brings an empty list of references and no evidence is presented as it is, and comes
      back with a list of evidence instead. */
  lemma OwnReferencesAreLost()
    ensures Presentable(WITH_REFERENCES) && VariantsOf(WITH_REFERENCES) == [Object(OWN_REFERENCES)]
    ensures var summary := SummaryOf(WITH_REFERENCES, [Object(OWN_REFERENCES)], []);
            && Compacted(SourcesOf(summary), OWN_REFERENCES, OWN_REFERENCES)
            && ExpandVariant(SourcesOf(summary), OWN_REFERENCES) == Expanded(map[EVIDENCE := Array([])])
            && !GivesBack(WITH_REFERENCES, Expand(summary))
  {
    hide GivesBack, Expand;
    KeysDistinct();
    var variants := [Object(OWN_REFERENCES)];
    assert WITH_REFERENCES["data"].fields[VARIANTS] == Array(variants);
    var summary := SummaryOf(WITH_REFERENCES, variants, []);
    var src := SourcesOf(summary);
    assert Compacted(src, OWN_REFERENCES, OWN_REFERENCES);
    assert EVIDENCE_REFS in OWN_REFERENCES && !Plain(OWN_REFERENCES);
    assert variants[0].fields == OWN_REFERENCES;
    SummaryExpands(WITH_REFERENCES, variants, []);
    assert ExpandVariant(src, OWN_REFERENCES).value == map[EVIDENCE := Array([])];
  }
}
