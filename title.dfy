/** The product card shows a product's title cut to a fixed width. */
module Title {

  /** How many characters of a title the card shows before the ellipsis. */
  const MaxShown: nat := 30

  /** The ellipsis appended to a title that was cut. */
  const Ellipsis: string := "..."

  function Min(a: nat, b: nat): nat { if a <= b then a else b }

  /** The title as the product card renders it. */
  function Shown(title: string): (r: string)
    ensures |title| <= MaxShown ==> r == title
    ensures |title| > MaxShown ==> |r| == MaxShown + |Ellipsis| && r[MaxShown..] == Ellipsis
    ensures |r| <= MaxShown + |Ellipsis|
    ensures r[..Min(MaxShown, |title|)] == title[..Min(MaxShown, |title|)]
  {
    if |title| > MaxShown then title[..MaxShown] + Ellipsis else title
  }

  /** Showing an already shown title changes nothing. */
  lemma ShownIdempotent(title: string)
    ensures Shown(Shown(title)) == Shown(title)
  {
    if |title| > MaxShown {
      var r := Shown(title);
      assert r[..MaxShown] == title[..MaxShown];
      assert r == r[..MaxShown] + r[MaxShown..];
    }
  }

  /** A title one or two characters over the width is shown longer than it is. */
  lemma ShownCanGrow(title: string)
    requires MaxShown < |title| < MaxShown + |Ellipsis|
    ensures |Shown(title)| > |title|
  {
  }

  /** Two titles are shown alike exactly when both are short and equal, or both are long and share their first characters. */
  lemma ShownAlike(a: string, b: string)
    ensures Shown(a) == Shown(b) <==>
      (|a| <= MaxShown && |b| <= MaxShown && a == b) ||
      (|a| > MaxShown && |b| > MaxShown && a[..MaxShown] == b[..MaxShown])
  {
    if Shown(a) == Shown(b) && |a| > MaxShown && |b| > MaxShown {
      assert Shown(a)[..MaxShown] == Shown(b)[..MaxShown];
    }
  }
}
