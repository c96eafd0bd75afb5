/**
 An independent, declarative account of the classifier: list the nodes the
 walk visits, and the verdict is the marker of the first node that carries
 one — `false` when none does. Nodes past the deciding one are never consulted,
 which is what makes an override an opaque cap on everything it wraps.
 */
module ChainSpec {
  import opened GoErrors
  import opened Errs

  /** The nodes the classifier visits, outermost first; nil ends the chain. */
  function Chain(e: Error): (c: seq<Error>)
    ensures c == [] <==> e.Nil?
    ensures c != [] ==> c[0] == e
    ensures forall i :: 0 <= i < |c| ==> !c[i].Nil?
    decreases Size(e)
  {
    if e.Nil? then [] else [e] + Chain(Next(e))
  }

  /** Position `i` of chain `c` carries a marker and no earlier position does. */
  ghost predicate DecidesAt(c: seq<Error>, i: int)
  {
    && 0 <= i < |c|
    && Marker(c[i]).Some?
    && forall j :: 0 <= j < i ==> Marker(c[j]).None?
  }

  /** No node of the chain carries a marker. */
  ghost predicate Unmarked(c: seq<Error>)
  {
    forall i :: 0 <= i < |c| ==> Marker(c[i]).None?
  }

  /** The deciding node's marker is the verdict. */
  lemma {:induction false} FirstMarkerDecides(e: Error, i: int)
    requires 0 <= i < |Chain(e)|
    requires DecidesAt(Chain(e), i)
    ensures Temporary(e) == Marker(Chain(e)[i]).value
    decreases i
  {
    var c := Chain(e);
    if i > 0 {
      assert Marker(c[0]).None?;
      var c' := Chain(Next(e));
      assert c' == c[1..];
      forall j | 0 <= j < i - 1
        ensures Marker(c'[j]).None?
      {
        assert c'[j] == c[j + 1];
      }
      assert c'[i - 1] == c[i];
      FirstMarkerDecides(Next(e), i - 1);
    }
  }

  /** With no marker anywhere in the chain the verdict is the conservative `false`. */
  lemma {:induction false} UnmarkedIsPermanent(e: Error)
    requires Unmarked(Chain(e))
    ensures !Temporary(e)
    decreases Size(e)
  {
    if !e.Nil? {
      var c := Chain(e);
      assert Marker(c[0]).None?;
      var c' := Chain(Next(e));
      forall j | 0 <= j < |c'|
        ensures Marker(c'[j]).None?
      {
        assert c'[j] == c[j + 1];
      }
      UnmarkedIsPermanent(Next(e));
    }
  }

  /** Every chain either has exactly one deciding position or is unmarked. */
  lemma {:induction false} DecidedOrUnmarked(e: Error)
    ensures Unmarked(Chain(e)) || exists i :: DecidesAt(Chain(e), i)
    decreases Size(e)
  {
    if !e.Nil? {
      var c := Chain(e);
      if Marker(c[0]).Some? {
        assert DecidesAt(c, 0);
      } else {
        var c' := Chain(Next(e));
        DecidedOrUnmarked(Next(e));
        if Unmarked(c') {
          forall j | 0 <= j < |c|
            ensures Marker(c[j]).None?
          {
            if j > 0 {
              assert c[j] == c'[j - 1];
            }
          }
        } else {
          var k :| DecidesAt(c', k);
          assert c[k + 1] == c'[k];
          forall j | 0 <= j < k + 1
            ensures Marker(c[j]).None?
          {
            if j > 0 {
              assert c[j] == c'[j - 1];
            }
          }
          assert DecidesAt(c, k + 1);
        }
      }
    }
  }

  /** The classifier agrees with the declarative account, in both directions. */
  lemma TemporaryIffFirstMarkerTemporary(e: Error)
    ensures Temporary(e) <==>
              exists i :: DecidesAt(Chain(e), i) && Marker(Chain(e)[i]) == Some(true)
  {
    DecidedOrUnmarked(e);
    if Unmarked(Chain(e)) {
      UnmarkedIsPermanent(e);
    } else {
      var i :| DecidesAt(Chain(e), i);
      FirstMarkerDecides(e, i);
    }
  }

  /**
   Two errors whose chains carry the same markers up to and including the
   deciding node get the same verdict, whatever the nodes are and whatever lies
   further inward.
   */
  lemma {:induction false} InnerNodesIrrelevant(e: Error, e': Error, i: int)
    requires 0 <= i < |Chain(e)| && i < |Chain(e')|
    requires DecidesAt(Chain(e), i)
    requires forall j :: 0 <= j <= i ==> Marker(Chain(e')[j]) == Marker(Chain(e)[j])
    ensures Temporary(e) == Temporary(e')
  {
    assert DecidesAt(Chain(e'), i);
    FirstMarkerDecides(e, i);
    FirstMarkerDecides(e', i);
  }
}
