/** RDF terms, graph names, triples and quads, as values.
    IRIs, blank-node identifiers and literal lexical forms are plain strings:
    their validation and syntax are not part of this model. */
module Terms {
  import opened Wrappers

  /** A literal is tagged either with a language tag or with a datatype IRI. */
  datatype LiteralTag = Lang(tag: string) | Datatype(iri: string)

  /** The four variants of a sophia term. */
  datatype Term =
    | Iri(iri: string)
    | BNode(id: string)
    | Literal(lex: string, tag: LiteralTag)
    | Variable(name: string)

  /** Which variant a term is; used by the term-set extractors. */
  datatype TermKind = IriKind | BNodeKind | LiteralKind | VariableKind

  function KindOf(t: Term): TermKind {
    match t
    case Iri(_) => IriKind
    case BNode(_) => BNodeKind
    case Literal(_, _) => LiteralKind
    case Variable(_) => VariableKind
  }

  /** `None` is the default graph, `Some(t)` the graph named `t`. */
  type GraphName = Option<Term>

  datatype Triple = Triple(s: Term, p: Term, o: Term)

  datatype Quad = Quad(s: Term, p: Term, o: Term, g: GraphName)

  /** The terms found in a quad: subject, predicate, object and, for a named
      graph, its name. */
  function TermsOf(q: Quad): set<Term> {
    {q.s, q.p, q.o} + (if q.g.Some? then {q.g.value} else {})
  }

  /** The RDF and RDFS vocabulary the inline tests use, by prefixed name. */
  const RdfSubject := Iri("rdf:subject")
  const RdfPredicate := Iri("rdf:predicate")
  const RdfObject := Iri("rdf:object")
  const RdfType := Iri("rdf:type")
  const RdfProperty := Iri("rdf:Property")
  const RdfsClass := Iri("rdfs:Class")
  const RdfsSubClassOf := Iri("rdfs:subClassOf")
  const RdfsDomain := Iri("rdfs:domain")
  const RdfsRange := Iri("rdfs:range")
}
