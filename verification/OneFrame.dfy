/** Places around the labels of a body whose only try statement is one frame. */
module OneFrame {
  import opened Options
  import opened Sequences
  import opened TryFrames
  import opened GeneratorSpec

  function Around(f: Frame, r: Region): seq<Place> {
    [Place(f, r)]
  }

  lemma AroundIs(f: Frame, r: Region)
    ensures |Around(f, r)| == 1 && Around(f, r)[0] == Place(f, r) && Front(Around(f, r)) == []
  {
  }

  lemma {:induction false} AroundNests(f: Frame, l: nat)
    requires WellShaped(f) && f.start <= l < f.end
    ensures Nested(Around(f, RegionOf(f, l)), l) && Nested([], l)
  {
    AroundIs(f, RegionOf(f, l));
    hide Around;
  }

  lemma {:induction false} OutsideNests(l: nat)
    ensures Nested([], l)
  {
  }

  lemma NothingOpened(f: Frame, ps: seq<Place>)
    ensures ps + Opened([]) == ps
    ensures [] + Opened([f]) == Around(f, TryRegion)
  {
    assert Front([f]) == [];
    assert Opened([f]) == Opened([]) + Around(f, TryRegion);
  }

  /** A frame that the run did not open is not asked to be closed. */
  lemma {:induction false} OpenBefore(s: Shape, ps: seq<Place>)
    requires |ps| <= 1
    ensures AllClosed(s, ps, 1) && AllClosed(s, [], 0)
  {
  }
}
