/** The plugin ids a manifest may carry. */
module PluginIds {

  predicate Lower(c: char) {
    'a' <= c <= 'z'
  }

  predicate LowerOrDigit(c: char) {
    Lower(c) || '0' <= c <= '9'
  }

  predicate Inner(c: char) {
    LowerOrDigit(c) || c == '.'
  }

  /** `^[a-z][a-z0-9.]*[a-z0-9]$`; the final `$` also matches before one trailing
      line feed. */
  predicate Accepted(id: string) {
    Body(id) || (|id| > 0 && id[|id| - 1] == '\n' && Body(id[..|id| - 1]))
  }

  predicate Body(id: string) {
    |id| >= 2 && Lower(id[0]) && LowerOrDigit(id[|id| - 1])
    && forall i :: 1 <= i < |id| - 1 ==> Inner(id[i])
  }

  /** Without its trailing line feed an id is accepted exactly when it is two characters or
      longer, starts with a lower-case letter, ends with a letter or digit, and has only
      letters, digits and dots in between. */
  lemma AcceptedIff(id: string)
    requires id == [] || id[|id| - 1] != '\n'
    ensures Accepted(id) <==>
            && |id| >= 2 && 'a' <= id[0] <= 'z' && id[|id| - 1] != '.'
            && forall i :: 0 <= i < |id| ==> 'a' <= id[i] <= 'z' || '0' <= id[i] <= '9' || id[i] == '.'
    ensures Accepted(id + "\n") <==> Accepted(id)
  {
    assert (id + "\n")[..|id|] == id;
    assert !Body(id + "\n") by {
      assert (id + "\n")[|id|] == '\n';
    }
    if |id| >= 2 && Lower(id[0]) && LowerOrDigit(id[|id| - 1]) {
      assert Body(id) <==> forall i :: 1 <= i < |id| - 1 ==> Inner(id[i]);
    }
  }

  lemma AcceptedAlphabet(id: string, i: nat)
    requires Accepted(id) && i < |id|
    ensures Inner(id[i]) || id[i] == '\n'
  {
    if !Body(id) && i < |id| - 1 {
      assert id[..|id| - 1][i] == id[i];
    }
  }
}
