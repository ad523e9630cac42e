/** The names under which the launch coordinator files its mutation authorizations.  An identifier joins
    owner, fence, stack kind and edge with colons, and an owner may itself contain colons. */
module LaunchAuthorizations {

  datatype StackKind = AgentCore | ControlPlane

  datatype Move = Quiesce | Cutover | Resume

  /** One selector edge of one stack: the move, and whether it concerns the restored table. */
  datatype Edge = Edge(kind: StackKind, move: Move, restored: bool)

  const PRIMARY_RECOVERY: seq<Edge> := [
    Edge(ControlPlane, Quiesce, true), Edge(AgentCore, Quiesce, true),
    Edge(ControlPlane, Cutover, false), Edge(AgentCore, Cutover, false),
    Edge(AgentCore, Resume, false), Edge(ControlPlane, Resume, false)]

  const RESTORED_CUTOVER: seq<Edge> := [
    Edge(ControlPlane, Quiesce, false), Edge(AgentCore, Quiesce, false),
    Edge(ControlPlane, Cutover, true), Edge(AgentCore, Cutover, true),
    Edge(AgentCore, Resume, true), Edge(ControlPlane, Resume, true)]

  function KindText(kind: StackKind): string {
    match kind
    case AgentCore => "agentcore"
    case ControlPlane => "control-plane"
  }

  function EdgeText(e: Edge): string {
    match e.move
    case Quiesce => if e.restored then "quiesce-restored" else "quiesce-primary"
    case Cutover => if e.restored then "cutover-to-restored" else "cutover-to-primary"
    case Resume => if e.restored then "resume-restored" else "resume-primary"
  }

  function Digit(d: nat): char
    requires d < 10
  {
    '0' + d as char
  }

  function Decimal(n: nat): string {
    if n < 10 then [Digit(n)] else Decimal(n / 10) + [Digit(n % 10)]
  }

  function AuthorizationId(owner: string, fence: nat, e: Edge): string {
    owner + ":" + Decimal(fence) + ":" + KindText(e.kind) + ":" + EdgeText(e)
  }

  predicate NoColon(s: string) {
    ':' !in s
  }

  lemma ColonsComeBefore(a: string, x: string, b: string, y: string)
    requires NoColon(x) && a + ":" + x == b + ":" + y
    ensures |b| <= |a|
  {
    assert (b + ":" + y)[|b|] == ':';
    assert (a + ":" + x)[|b|] == ':';
  }

  /** A text split at its last colon splits in one way. */
  lemma LastColonSplits(a: string, x: string, b: string, y: string)
    requires NoColon(x) && NoColon(y) && a + ":" + x == b + ":" + y
    ensures a == b && x == y
  {
    ColonsComeBefore(a, x, b, y);
    ColonsComeBefore(b, y, a, x);
    var s := a + ":" + x;
    assert a == s[..|a|] && b == (b + ":" + y)[..|b|];
    assert x == s[|a| + 1..] && y == (b + ":" + y)[|b| + 1..];
  }

  lemma {:induction false} DecimalHasNoColon(n: nat)
    ensures NoColon(Decimal(n)) && |Decimal(n)| >= 1
    decreases n
  {
    if n >= 10 {
      DecimalHasNoColon(n / 10);
    }
  }

  lemma {:induction false} DecimalIsInjective(m: nat, n: nat)
    requires Decimal(m) == Decimal(n)
    ensures m == n
    decreases m
  {
    DecimalHasNoColon(m / 10);
    DecimalHasNoColon(n / 10);
    var s, t := Decimal(m), Decimal(n);
    assert s[|s| - 1] == Digit(m % 10) && t[|t| - 1] == Digit(n % 10);
    assert m % 10 == n % 10;
    if m >= 10 {
      assert s[..|s| - 1] == Decimal(m / 10);
      assert t[..|t| - 1] == Decimal(n / 10);
      DecimalIsInjective(m / 10, n / 10);
    }
  }

  lemma TextsHaveNoColon(e: Edge)
    ensures NoColon(KindText(e.kind)) && NoColon(EdgeText(e))
  {
  }

  lemma TextsAreInjective(e: Edge, e': Edge)
    requires KindText(e.kind) == KindText(e'.kind) && EdgeText(e) == EdgeText(e')
    ensures e == e'
  {
    assert KindText(AgentCore)[0] != KindText(ControlPlane)[0];
    assert EdgeText(e)[0] == EdgeText(e')[0];
    assert |EdgeText(e)| == |EdgeText(e')|;
  }

  /** Two identifiers are equal only if owner, fence and edge all are, whatever the owners contain. */
  lemma IdsAreInjective(owner: string, fence: nat, e: Edge, owner': string, fence': nat, e': Edge)
    requires AuthorizationId(owner, fence, e) == AuthorizationId(owner', fence', e')
    ensures owner == owner' && fence == fence' && e == e'
  {
    TextsHaveNoColon(e);
    TextsHaveNoColon(e');
    DecimalHasNoColon(fence);
    DecimalHasNoColon(fence');
    LastColonSplits(owner + ":" + Decimal(fence) + ":" + KindText(e.kind), EdgeText(e),
                    owner' + ":" + Decimal(fence') + ":" + KindText(e'.kind), EdgeText(e'));
    LastColonSplits(owner + ":" + Decimal(fence), KindText(e.kind), owner' + ":" + Decimal(fence'), KindText(e'.kind));
    LastColonSplits(owner, Decimal(fence), owner', Decimal(fence'));
    DecimalIsInjective(fence, fence');
    TextsAreInjective(e, e');
  }
}
