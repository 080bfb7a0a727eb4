/** The Stevenson bedside classification of acute heart failure.

    A patient is placed on two axes: perfusion, read from the cardiac index
    (IC, L/min/m², "warm" or "cold"), and congestion, read from the pulmonary
    capillary wedge pressure (PCAP, mmHg, "dry" or "wet"). The four
    combinations are the profiles A, B, C and L. IC is an exact real here;
    PCAP is an integer, as the slider that produces it is integer-valued.
 */
module Stevenson {

  /** Cardiac index at or above which a patient counts as warm. */
  const WarmIc: real := 2.2

  /** Wedge pressure at or below which a patient counts as dry. */
  const DryPcap: int := 18

  /** The classifier's outcomes, including its fallback branch. */
  datatype Profile =
    | A            // compensated: warm and dry
    | B            // congestive: warm and wet
    | C            // congestive and hypoperfused: cold and wet
    | L            // hypoperfused and dry: cold and dry
    | Unclassified // the fallback label

  /** The text the dashboard shows for each profile. Each of the four
      profiles is shown as "Perfil " followed by its own letter; only the
      fallback is not. */
  function Label(p: Profile): (s: string)
    ensures p != Unclassified <==> |s| > 7 && s[..7] == "Perfil "
    ensures p == A ==> s[7] == 'A'
    ensures p == B ==> s[7] == 'B'
    ensures p == C ==> s[7] == 'C'
    ensures p == L ==> s[7] == 'L'
  {
    match p
    case A => "Perfil A - Compensado"
    case B => "Perfil B - Congestivo"
    case C => "Perfil C - Congestivo e Hipoperfundido"
    case L => "Perfil L - Hipoperfundido seco"
    case Unclassified =>
      // Its first letter already tells it apart from every profile label.
      assert "No clasificado"[..7][0] == 'N';
      "No clasificado"
  }

  /** Reference definition: the profile that sits in a given quadrant of the
      perfusion/congestion plane, independent of any threshold. */
  function Quadrant(warm: bool, dry: bool): (p: Profile)
    ensures p != Unclassified
    ensures IsWarmProfile(p) == warm && IsDryProfile(p) == dry
  {
    if warm then (if dry then A else B) else (if dry then L else C)
  }

  /** The perfusion side a profile stands for: A and B are warm. */
  predicate IsWarmProfile(p: Profile) {
    p == A || p == B
  }

  /** The congestion side a profile stands for: A and L are dry. */
  predicate IsDryProfile(p: Profile) {
    p == A || p == L
  }

  /** The classifier as written: four guarded branches tried in order, then a
      fallback. Its result is the quadrant of the two threshold tests, so the
      fallback is never reached, and each profile is characterised by
      exactly one combination of the two tests. */
  function Classify(ic: real, pcap: int): (p: Profile)
    ensures p != Unclassified
    ensures p == Quadrant(ic >= WarmIc, pcap <= DryPcap)
    ensures p == A <==> ic >= 2.2 && pcap <= 18
    ensures p == B <==> ic >= 2.2 && pcap > 18
    ensures p == C <==> ic < 2.2 && pcap > 18
    ensures p == L <==> ic < 2.2 && pcap <= 18
  {
    if ic >= WarmIc && pcap <= DryPcap then A
    else if ic >= WarmIc && pcap > DryPcap then B
    else if ic < WarmIc && pcap > DryPcap then C
    else if ic < WarmIc && pcap <= DryPcap then L
    else Unclassified
  }

  /** What the dashboard function returns: the label of the profile. It is
      always one of the four profile labels, never the fallback text. */
  function ClassifyLabel(ic: real, pcap: int): (s: string)
    ensures s != "No clasificado"
    ensures s == Label(Classify(ic, pcap))
    ensures s in {Label(A), Label(B), Label(C), Label(L)}
  {
    LabelsDistinct();
    Label(Classify(ic, pcap))
  }

  /** Distinct profiles are shown with distinct texts, so the returned text
      identifies the profile. */
  lemma LabelsDistinct()
    ensures forall p: Profile, q: Profile :: p != q ==> Label(p) != Label(q)
  {
  }

  /** The perfusion side of the result is decided by IC alone. */
  lemma WarmSideOnlyFromIc(ic: real, pcap: int)
    ensures IsWarmProfile(Classify(ic, pcap)) <==> ic >= WarmIc
  {
  }

  /** The congestion side of the result is decided by PCAP alone. */
  lemma DrySideOnlyFromPcap(ic: real, pcap: int)
    ensures IsDryProfile(Classify(ic, pcap)) <==> pcap <= DryPcap
  {
  }

  /** Changing only IC never moves a patient between dry and wet. */
  lemma IcChangeKeepsCongestionSide(ic1: real, ic2: real, pcap: int)
    ensures IsDryProfile(Classify(ic1, pcap)) == IsDryProfile(Classify(ic2, pcap))
  {
  }

  /** Changing only PCAP never moves a patient between warm and cold. */
  lemma PcapChangeKeepsPerfusionSide(ic: real, pcap1: int, pcap2: int)
    ensures IsWarmProfile(Classify(ic, pcap1)) == IsWarmProfile(Classify(ic, pcap2))
  {
  }

  /** Every PCAP of 19 or more is wet, whatever the cardiac index. */
  lemma HighPcapIsWet(ic: real, pcap: int)
    requires pcap >= 19
    ensures Classify(ic, pcap) in {B, C}
  {
  }

  /** Both thresholds belong to the warm and dry side: the corner point
      (2.2, 18) is profile A, and one mmHg more is profile B. */
  lemma BoundaryCorner()
    ensures Classify(2.2, 18) == A
    ensures Classify(2.2, 19) == B
    ensures forall ic: real :: ic < 2.2 ==> Classify(ic, 18) == L
  {
  }

  /** Where the quadrant chart writes each profile's letter, as
      (cardiac index, wedge pressure). The point lies inside the chart's axis
      limits (IC 1 to 4, PCAP 5 to 35) and on the warm/cold and dry/wet side
      of the threshold lines that its profile stands for. */
  function ChartLabelPoint(p: Profile): (pt: (real, int))
    requires p != Unclassified
    ensures 1.0 <= pt.0 <= 4.0 && 5 <= pt.1 <= 35
    ensures (pt.0 >= WarmIc) == IsWarmProfile(p)
    ensures (pt.1 <= DryPcap) == IsDryProfile(p)
  {
    match p
    case A => (3.3, 10)
    case B => (3.3, 30)
    case C => (1.5, 30)
    case L => (1.5, 10)
  }

  /** Each letter on the chart is drawn inside the region its own profile
      covers, so classifying the letter's position gives the letter back. */
  lemma ChartLabelsInOwnQuadrant(p: Profile)
    requires p != Unclassified
    ensures Classify(ChartLabelPoint(p).0, ChartLabelPoint(p).1) == p
  {
  }

  /** Every profile is reached: a point classified as p exists for each of
      the four profiles, inside the slider ranges (IC 1.0 to 4.0, PCAP 5 to 35). */
  lemma EveryProfileReachable(p: Profile)
    requires p != Unclassified
    ensures exists ic: real, pcap: int ::
      1.0 <= ic <= 4.0 && 5 <= pcap <= 35 && Classify(ic, pcap) == p
  {
    ChartLabelsInOwnQuadrant(p);
    var pt := ChartLabelPoint(p);
    assert 1.0 <= pt.0 <= 4.0 && 5 <= pt.1 <= 35 && Classify(pt.0, pt.1) == p;
  }
}
