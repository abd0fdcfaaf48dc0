/**
 * The human-readable form of an identifier, `XX XXXX XXXX X XX`: indicator,
 * first and last four serial digits, check digit and destination code.
 */
module LabelText {

  function Min(a: int, b: int): int {
    if a <= b then a else b
  }

  /** Python's `s[lo:hi]` for `0 <= lo <= hi`: bounds past the end are clamped. */
  function Slice(s: string, lo: nat, hi: nat): (r: string)
    requires lo <= hi
    ensures |r| == Min(hi, |s|) - Min(lo, |s|)
    ensures forall k :: 0 <= k < |r| ==> r[k] == s[lo + k]
  {
    s[Min(lo, |s|)..Min(hi, |s|)]
  }

  /** `format_s10_text`: slices at 2, 6, 10, 11 and 13 joined by single spaces. */
  function FormatText(id: string): (r: string)
    ensures |r| == Min(|id|, 13) + 4
  {
    Join(Slice(id, 0, 2), Slice(id, 2, 6), Slice(id, 6, 10), Slice(id, 10, 11), Slice(id, 11, 13))
  }

  /** The five fields with a single space between each two. */
  function Join(si: string, sn1: string, sn2: string, cs: string, cc: string): string {
    si + " " + sn1 + " " + sn2 + " " + cs + " " + cc
  }

  /** The 17-character display form with its four separators. */
  predicate IsDisplayForm(r: string) {
    |r| == 17 && r[2] == ' ' && r[7] == ' ' && r[12] == ' ' && r[14] == ' '
  }

  /** Deletes the characters at positions 2, 7, 12 and 14 of a display form. */
  function Unformat(r: string): (id: string)
    requires |r| == 17
    ensures |id| == 13
  {
    r[0..2] + r[3..7] + r[8..12] + r[13..14] + r[15..17]
  }

  /** Fields of widths 2, 4, 4, 1 and 2 sit at fixed places in the joined text. */
  lemma JoinFields(si: string, sn1: string, sn2: string, cs: string, cc: string)
    requires |si| == 2 && |sn1| == 4 && |sn2| == 4 && |cs| == 1 && |cc| == 2
    ensures var r := Join(si, sn1, sn2, cs, cc);
      && IsDisplayForm(r)
      && r[0..2] == si && r[3..7] == sn1 && r[8..12] == sn2 && r[13..14] == cs && r[15..17] == cc
  {
    var p1 := si + " ";
    var p2 := p1 + sn1;
    var p3 := p2 + " ";
    var p4 := p3 + sn2;
    var p5 := p4 + " ";
    var p6 := p5 + cs;
    var p7 := p6 + " ";
    var r := p7 + cc;
    assert r == Join(si, sn1, sn2, cs, cc);
    assert r[..15] == p7 && r[15..17] == cc;
    assert p7[..14] == p6 && p6[..13] == p5 && p6[13..14] == cs;
    assert p5[..12] == p4 && p4[..8] == p3 && p4[8..12] == sn2;
    assert p3[..7] == p2 && p2[..3] == p1 && p2[3..7] == sn1;
    assert p1[..2] == si;
  }

  /** For a 13-character identifier the clamped slices are the plain fields. */
  lemma FormatFields(id: string)
    requires |id| == 13
    ensures FormatText(id) == Join(id[0..2], id[2..6], id[6..10], id[10..11], id[11..13])
  {
  }

  /**
   * Formatting a 13-character identifier gives a display form whose fields
   * are the identifier's indicator, serial halves, check digit and code.
   */
  lemma FormatPositions(id: string)
    requires |id| == 13
    ensures var r := FormatText(id);
      && IsDisplayForm(r)
      && r[0..2] == id[0..2] && r[3..7] == id[2..6] && r[8..12] == id[6..10]
      && r[13..14] == id[10..11] && r[15..17] == id[11..13]
  {
    FormatFields(id);
    JoinFields(id[0..2], id[2..6], id[6..10], id[10..11], id[11..13]);
  }

  /** Deleting the separators gives back the identifier exactly. */
  lemma UnformatFormat(id: string)
    requires |id| == 13
    ensures Unformat(FormatText(id)) == id
  {
    FormatPositions(id);
    assert id == id[0..2] + id[2..6] + id[6..10] + id[10..11] + id[11..13];
  }

  /** Two display forms with the same five fields are equal. */
  lemma SameFields(a: string, b: string)
    requires IsDisplayForm(a) && IsDisplayForm(b)
    requires a[0..2] == b[0..2] && a[3..7] == b[3..7] && a[8..12] == b[8..12]
    requires a[13..14] == b[13..14] && a[15..17] == b[15..17]
    ensures a == b
  {
    forall k | 0 <= k < 17
      ensures a[k] == b[k]
    {
      if k < 2 {
        assert a[k] == a[0..2][k] && b[k] == b[0..2][k];
      } else if 3 <= k < 7 {
        assert a[k] == a[3..7][k - 3] && b[k] == b[3..7][k - 3];
      } else if 8 <= k < 12 {
        assert a[k] == a[8..12][k - 8] && b[k] == b[8..12][k - 8];
      } else if k == 13 {
        assert a[k] == a[13..14][0] && b[k] == b[13..14][0];
      } else if 15 <= k {
        assert a[k] == a[15..17][k - 15] && b[k] == b[15..17][k - 15];
      }
    }
  }

  /** Every display form is the formatting of the identifier it spells. */
  lemma FormatUnformat(r: string)
    requires IsDisplayForm(r)
    ensures FormatText(Unformat(r)) == r
  {
    var id := Unformat(r);
    assert id[0..2] == r[0..2] && id[2..6] == r[3..7] && id[6..10] == r[8..12];
    assert id[10..11] == r[13..14] && id[11..13] == r[15..17];
    FormatPositions(id);
    SameFields(FormatText(id), r);
  }

  lemma FormatExample()
    ensures FormatText("HF600000007CN") == "HF 6000 0000 7 CN"
  {
  }
}
