/**
 * The part of the Kubernetes core/v1 scheduling rules that avoid lists are compiled to:
 * node selectors and tolerations. Terms of a selector are alternatives, the requirements of a
 * term must all hold, and a term without requirements selects nothing.
 */
module NodeRules {
  import opened Common

  type Labels = map<string, string>

  datatype Taint = Taint(key: string, value: string, effect: string)

  datatype Toleration = Toleration(key: string, operator: string, value: string, effect: string)

  datatype Node = Node(name: string, labels: Labels, taints: seq<Taint>, ready: bool, pods: Option<int>)

  datatype Operator = In | NotIn | Exists | DoesNotExist | Gt | Lt

  datatype Requirement = Requirement(key: string, op: Operator, values: seq<string>)

  datatype Term = Term(exprs: seq<Requirement>, fields: seq<Requirement>) {
    predicate Empty() { exprs == [] && fields == [] }
  }

  datatype PreferredTerm = PreferredTerm(weight: int, term: Term)

  datatype NodeAffinity = NodeAffinity(required: Option<seq<Term>>, preferred: seq<PreferredTerm>)

  /** A signed decimal number. */
  function Number(s: string): Option<int> {
    if s != "" && s[0] in ['-', '+'] then
      match Digits(s[1..])
      case None => None
      case Some(n) => Some(if s[0] == '-' then -n else n)
    else Digits(s)
  }

  function Digits(s: string): Option<int> {
    if s == "" || exists i :: 0 <= i < |s| && !('0' <= s[i] <= '9') then None else Some(DigitsValue(s))
  }

  function DigitsValue(s: string): int
    requires forall i :: 0 <= i < |s| ==> '0' <= s[i] <= '9'
  {
    if s == "" then 0 else 10 * DigitsValue(s[..|s| - 1]) + (s[|s| - 1] as int - '0' as int)
  }

  /** A requirement on labels; one that is not well formed holds of nothing. */
  predicate Holds(r: Requirement, labels: Labels) {
    match r.op
    case In => r.key in labels && labels[r.key] in r.values
    case NotIn => r.values != [] && (r.key !in labels || labels[r.key] !in r.values)
    case Exists => r.values == [] && r.key in labels
    case DoesNotExist => r.values == [] && r.key !in labels
    case Gt => Compares(r, labels) && Number(labels[r.key]).value > Number(r.values[0]).value
    case Lt => Compares(r, labels) && Number(labels[r.key]).value < Number(r.values[0]).value
  }

  predicate Compares(r: Requirement, labels: Labels) {
    |r.values| == 1 && Number(r.values[0]).Some? && r.key in labels && Number(labels[r.key]).Some?
  }

  /** Only the node's name is a field, compared with one value. */
  predicate FieldHolds(r: Requirement, name: string) {
    var have := if r.key == "metadata.name" then name else "";
    |r.values| == 1 && ((r.op.In? && have == r.values[0]) || (r.op.NotIn? && have != r.values[0]))
  }

  predicate AllHold(rs: seq<Requirement>, labels: Labels) {
    forall r :: r in rs ==> Holds(r, labels)
  }

  predicate TermSelects(t: Term, n: Node) {
    !t.Empty() && AllHold(t.exprs, n.labels) && forall r :: r in t.fields ==> FieldHolds(r, n.name)
  }

  predicate Selects(terms: seq<Term>, n: Node) {
    exists t :: t in terms && TermSelects(t, n)
  }

  /** No affinity, or none that is required, accepts every node. */
  predicate Accepts(aff: Option<NodeAffinity>, n: Node) {
    aff.Some? && aff.value.required.Some? ==> Selects(aff.value.required.value, n)
  }

  /** Whether a toleration matches a taint: an empty effect or key matches all. */
  predicate Tolerates(tol: Toleration, taint: Taint) {
    && (tol.effect == "" || tol.effect == taint.effect)
    && (tol.key == "" || tol.key == taint.key)
    && (tol.operator == "Exists" || (tol.operator in ["", "Equal"] && tol.value == taint.value))
  }
}
