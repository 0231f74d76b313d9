/**
 `ValidateConsentNeuron`: a node whose evaluator passes the consent record
 through untouched and whose one validator asks the record whether it holds
 a current access token. The record's own check is not part of this model;
 it is a parameter.
 */
module ValidateConsent {
  import opened TokenTypes

  /** The part of a neuron this node sets: its evaluator and the validators it adds. */
  datatype Node<!I, !O> = Node(evaluator: I -> O, validators: seq<O -> bool>)

  /** Every validator of `n` accepts `v`, so a cached `v` is reused as is. */
  predicate Accepts<I, O>(n: Node<I, O>, v: O) {
    forall i :: 0 <= i < |n.validators| ==> n.validators[i](v)
  }

  /**
   The node built by the constructor: identity evaluator, and a cached
   consent is accepted exactly when it has a current access token. Since
   the evaluator hands the same record back, re-evaluating never turns a
   rejected consent into an accepted one; a stale consent must be
   refreshed by another node.
   */
  function ValidateConsentNeuron(hasCurrentAccessToken: Consent -> bool): (n: Node<Consent, Consent>)
    ensures forall c :: n.evaluator(c) == c
    ensures forall c :: Accepts(n, c) <==> hasCurrentAccessToken(c)
  {
    var n := Node(c => c, [hasCurrentAccessToken]);
    assert forall c :: Accepts(n, c) <==> n.validators[0](c);
    n
  }
}
