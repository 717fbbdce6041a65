/**
 * The symbol table behind the two radial menus: a set holds a base and an
 * alternate pair, a pair holds the keys of the left and the right menu, and
 * the keys of one menu are a lower-case and an upper-case list of glyphs.
 *
 * The Java classes are mutable beans; here each is an immutable value and
 * every setter returns the updated value.
 */
module RadialMenuSet {

  /** The glyphs of one menu. `lower` and `upper` are independent lists: nothing relates their lengths. */
  datatype RadialMenuKeys = RadialMenuKeys(lower: seq<string>, upper: seq<string>)
  {
    function SetLower(newLower: seq<string>): (r: RadialMenuKeys)
      ensures r.lower == newLower && r.upper == upper
    {
      this.(lower := newLower)
    }

    function SetUpper(newUpper: seq<string>): (r: RadialMenuKeys)
      ensures r.upper == newUpper && r.lower == lower
    {
      this.(upper := newUpper)
    }
  }

  /** The keys of the left and of the right radial menu. */
  datatype RadialMenuPair = RadialMenuPair(left: RadialMenuKeys, right: RadialMenuKeys)
  {
    function SetLeft(newLeft: RadialMenuKeys): (r: RadialMenuPair)
      ensures r.left == newLeft && r.right == right
    {
      this.(left := newLeft)
    }

    function SetRight(newRight: RadialMenuKeys): (r: RadialMenuPair)
      ensures r.right == newRight && r.left == left
    {
      this.(right := newRight)
    }
  }

  /** One layer of the symbol table: the base pair and the pair used while the alternate set is active. */
  datatype RadialMenuSet = RadialMenuSet(base: RadialMenuPair, alt: RadialMenuPair)
  {
    function SetBase(newBase: RadialMenuPair): (r: RadialMenuSet)
      ensures r.base == newBase && r.alt == alt
    {
      this.(base := newBase)
    }

    function SetAlt(newAlt: RadialMenuPair): (r: RadialMenuSet)
      ensures r.alt == newAlt && r.base == base
    {
      this.(alt := newAlt)
    }

    /** The pair in force: the alternate one when `isAlt` holds, the base one otherwise. */
    function GetPair(isAlt: bool): (p: RadialMenuPair)
      ensures isAlt ==> p == alt
      ensures !isAlt ==> p == base
    {
      if isAlt then alt else base
    }
  }

  /** Replacing the alternate pair is seen by `GetPair(true)` and invisible to `GetPair(false)`; likewise for the base pair. */
  lemma SetterSelectorLaws(s: RadialMenuSet, p: RadialMenuPair)
    ensures s.SetAlt(p).GetPair(true) == p && s.SetAlt(p).GetPair(false) == s.GetPair(false)
    ensures s.SetBase(p).GetPair(false) == p && s.SetBase(p).GetPair(true) == s.GetPair(true)
    ensures s.SetBase(s.GetPair(false)) == s && s.SetAlt(s.GetPair(true)) == s
  {
  }

  /** Two upper/lower lists of different lengths form a legal menu: the data model imposes no length relation. */
  lemma CaseListsMayDiffer()
    ensures exists k: RadialMenuKeys :: |k.lower| != |k.upper|
  {
    var k := RadialMenuKeys(["a", "b"], ["A"]);
    assert |k.lower| != |k.upper|;
  }
}
