/** Terms, quads and the vocabulary shared by every component.
    A store is the set of the quads of its default graph. */
module Rdf {
  datatype Option<+T> = None | Some(value: T)

  /** What identifies an asset collection that is based on a relation. */
  datatype Meta = Meta(relation: string, source: string, reverse: bool)

  /** The IRIs the server compares with; `Iri` stands for every other IRI. */
  datatype Word =
    | AssetCollection | PartyCollection | Agreement | PolicySet | PermissionClass
    | EvaluationRequest | ConstraintClass
    | Requested | Accepted | Denied
    | Lt | Lteq | Eq | Gt | Gteq
    | DateTime | DeliveryChannel
    | Read | Append | Create | Delete | Write | Modify
    | CssRead | CssAppend | CssCreate | CssDelete | CssWrite
    | DerivationRead | DerivationCreation
    | Anonymous

  /** IRIs minted by the server have constructors of their own: they are built on
      fresh random identifiers, or by a concatenation that is taken to be injective. */
  datatype Term =
    | Iri(value: string)
    | Known(word: Word)
    | Literal(value: string)
    | Blank(serial: nat, about: Term)
    | Collection(meta: Meta)
    | Minted(serial: nat)
    | PermissionOf(base: Term)
    | ConstraintOf(base: Term, index: nat)

  datatype Predicate =
    | RdfType | Description
    | PartOf | Source | Relation | InverseOf | Creator
    | Uid | HasPermission | HasProhibition
    | Target | Action | Assignee | Assigner
    | HasConstraint | LeftOperand | Operator | RightOperand
    | OvcConstraint | OvcLeftOperand | OvcSubjectType
    | RequestedTarget | RequestedAction | RequestingParty | RequestStatus
    | OtherPredicate(iri: string)

  datatype Quad = Quad(s: Term, p: Predicate, o: Term)

  function QuadsOf(store: set<Quad>, subject: Term): (quads: set<Quad>) {
    set q | q in store && q.s == subject
  }

  function ObjectsOf(store: set<Quad>, subject: Term, property: Predicate): (objects: set<Term>) {
    set q | q in store && q.s == subject && q.p == property :: q.o
  }

  function SubjectsOf(store: set<Quad>, property: Predicate, value: Term): (subjects: set<Term>) {
    set q | q in store && q.p == property && q.o == value :: q.s
  }

  function QuadsTo(store: set<Quad>, property: Predicate, value: Term): (quads: set<Quad>) {
    set q | q in store && q.p == property && q.o == value
  }

  function SubjectsIn(quads: set<Quad>): (subjects: set<Term>) {
    set q | q in quads :: q.s
  }

  /** Everything about some subjects is removed, and then something is added. */
  function Overwritten(store: set<Quad>, subjects: set<Term>, added: set<Quad>): (after: set<Quad>) {
    (set q | q in store && q.s !in subjects) + added
  }

  lemma ObjectsAre(quads: set<Quad>, subject: Term, property: Predicate, objects: set<Term>)
    requires forall q | q in quads && q.s == subject && q.p == property :: q.o in objects
    requires forall o | o in objects :: Quad(subject, property, o) in quads
    ensures ObjectsOf(quads, subject, property) == objects
  {}

  lemma SomeMember(terms: seq<Term>)
    ensures terms == [] || exists t :: t in terms
  {
    if terms != [] { assert terms[0] in terms; }
  }
}
