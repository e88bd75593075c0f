/** The trick catalog: every attribute value, per category and flattened, in
    declaration order, and the grouping of the flattened list by category. */
module Catalog {
  import opened Tricks

  /** The attribute of each trick type, in declaration order. */
  function TrickTypeAttributes(): seq<TrickAttribute> {
    [TypeAttribute(SoulPlate), TypeAttribute(HBlock)]
  }

  function TrickBaseAttributes(): seq<TrickAttribute> {
    [BaseAttribute(Soul), BaseAttribute(Acid), BaseAttribute(Mizou), BaseAttribute(Pornstar),
     BaseAttribute(Royale), BaseAttribute(Nugen), BaseAttribute(Unity), BaseAttribute(Backslide), BaseAttribute(Torque)]
  }

  function TrickSideAttributes(): seq<TrickAttribute> {
    [SideAttribute(Soulside), SideAttribute(Topside), SideAttribute(Frontside), SideAttribute(Backside)]
  }

  function TrickSpinAttributes(): seq<TrickAttribute> {
    [SpinAttribute(AlleyOop), SpinAttribute(Truespin), SpinAttribute(Inspin), SpinAttribute(Outspin),
     SpinAttribute(ThreeSixty), SpinAttribute(Hurricane), SpinAttribute(Fullcab), SpinAttribute(FullTrue),
     SpinAttribute(TwoSeventy), SpinAttribute(FakieTwoSeventy)]
  }

  /** Each attribute list wraps its enumeration's cases one for one, in order. */
  lemma AttributeListsFollowCases()
    ensures |TrickTypeAttributes()| == |TrickType.AllCases()|
    ensures forall i :: 0 <= i < |TrickType.AllCases()| ==> TrickTypeAttributes()[i] == TypeAttribute(TrickType.AllCases()[i])
    ensures |TrickBaseAttributes()| == |TrickBase.AllCases()|
    ensures forall i :: 0 <= i < |TrickBase.AllCases()| ==> TrickBaseAttributes()[i] == BaseAttribute(TrickBase.AllCases()[i])
    ensures |TrickSideAttributes()| == |Side.AllCases()|
    ensures forall i :: 0 <= i < |Side.AllCases()| ==> TrickSideAttributes()[i] == SideAttribute(Side.AllCases()[i])
    ensures |TrickSpinAttributes()| == |Spin.AllCases()|
    ensures forall i :: 0 <= i < |Spin.AllCases()| ==> TrickSpinAttributes()[i] == SpinAttribute(Spin.AllCases()[i])
  {
  }

  /** The catalog list of one category. */
  function CategoryAttributes(c: TrickAttributeType): seq<TrickAttribute> {
    match c
    case TrickTypeCategory => TrickTypeAttributes()
    case TrickBaseCategory => TrickBaseAttributes()
    case SideCategory => TrickSideAttributes()
    case SpinCategory => TrickSpinAttributes()
  }

  /** All attributes: types, then bases, sides and spins, each in declaration order. */
  function TrickAttributes(): seq<TrickAttribute> {
    TrickTypeAttributes() + TrickBaseAttributes() + TrickSideAttributes() + TrickSpinAttributes()
  }

  /** The in-order subsequence of `s` whose elements have category `c`. */
  function OfCategory(s: seq<TrickAttribute>, c: TrickAttributeType): seq<TrickAttribute>
  {
    if s == [] then []
    else
      var last := s[|s| - 1];
      OfCategory(s[..|s| - 1], c) + (if last.Category() == c then [last] else [])
  }

  /** Each category's list holds exactly the attributes of that category. */
  lemma CategoryListMembership(a: TrickAttribute, c: TrickAttributeType)
    ensures a in CategoryAttributes(c) <==> a.Category() == c
  {
    match a
    case TypeAttribute(t) => AllTrickTypesListed(t);
    case BaseAttribute(b) => AllBasesListed(b);
    case SideAttribute(s) => AllSidesListed(s);
    case SpinAttribute(s) => AllSpinsListed(s);
  }

  /** The flattened catalog lists every attribute value. */
  lemma CatalogComplete(a: TrickAttribute)
    ensures a in TrickAttributes()
  {
    CategoryListMembership(a, a.Category());
  }

  lemma {:induction false} OfCategoryConcat(s: seq<TrickAttribute>, t: seq<TrickAttribute>, c: TrickAttributeType)
    ensures OfCategory(s + t, c) == OfCategory(s, c) + OfCategory(t, c)
    decreases |t|
  {
    if t == [] {
      assert s + t == s;
    } else {
      var t', last := t[..|t| - 1], t[|t| - 1];
      var tail := if last.Category() == c then [last] else [];
      assert (s + t)[..|s + t| - 1] == s + t';
      assert (s + t)[|s + t| - 1] == last;
      calc {
        OfCategory(s + t, c);
        OfCategory(s + t', c) + tail;
        { OfCategoryConcat(s, t', c); }
        OfCategory(s, c) + OfCategory(t', c) + tail;
        OfCategory(s, c) + (OfCategory(t', c) + tail);
        OfCategory(s, c) + OfCategory(t, c);
      }
    }
  }

  /** Filtering a list whose elements all have category `d`. */
  lemma {:induction false} OfCategoryUniform(s: seq<TrickAttribute>, c: TrickAttributeType, d: TrickAttributeType)
    requires forall a :: a in s ==> a.Category() == d
    ensures OfCategory(s, c) == if c == d then s else []
    decreases |s|
  {
    if s != [] {
      var s', last := s[..|s| - 1], s[|s| - 1];
      forall a | a in s' ensures a.Category() == d {
        assert a in s;
      }
      OfCategoryUniform(s', c, d);
      assert last in s;
      assert OfCategory(s, c) == OfCategory(s', c) + (if last.Category() == c then [last] else []);
      if c == d {
        assert s' + [last] == s;
      }
    }
  }

  lemma OfCategoryConcat4(s1: seq<TrickAttribute>, s2: seq<TrickAttribute>, s3: seq<TrickAttribute>,
                          s4: seq<TrickAttribute>, c: TrickAttributeType)
    ensures OfCategory(s1 + s2 + s3 + s4, c) == OfCategory(s1, c) + OfCategory(s2, c) + OfCategory(s3, c) + OfCategory(s4, c)
  {
    OfCategoryConcat(s1 + s2 + s3, s4, c);
    OfCategoryConcat(s1 + s2, s3, c);
    OfCategoryConcat(s1, s2, c);
  }

  /** Filtering four concatenated single-category lists by one of their categories
      gives back that list. */
  lemma SelectOneOfFour(s1: seq<TrickAttribute>, s2: seq<TrickAttribute>, s3: seq<TrickAttribute>,
                        s4: seq<TrickAttribute>, c: TrickAttributeType, target: seq<TrickAttribute>)
    requires OfCategory(s1, c) == if c == TrickTypeCategory then s1 else []
    requires OfCategory(s2, c) == if c == TrickBaseCategory then s2 else []
    requires OfCategory(s3, c) == if c == SideCategory then s3 else []
    requires OfCategory(s4, c) == if c == SpinCategory then s4 else []
    requires c == TrickTypeCategory ==> target == s1
    requires c == TrickBaseCategory ==> target == s2
    requires c == SideCategory ==> target == s3
    requires c == SpinCategory ==> target == s4
    ensures OfCategory(s1 + s2 + s3 + s4, c) == target
  {
    OfCategoryConcat4(s1, s2, s3, s4, c);
    match c
    case TrickTypeCategory => assert s1 + [] + [] + [] == s1;
    case TrickBaseCategory => assert [] + s2 + [] + [] == s2;
    case SideCategory => assert [] + [] + s3 + [] == s3;
    case SpinCategory => assert [] + [] + [] + s4 == s4;
  }

  /** Grouping the flattened catalog by category gives back each category's list. */
  lemma GroupedCatalog(c: TrickAttributeType)
    ensures OfCategory(TrickAttributes(), c) == CategoryAttributes(c)
  {
    CategoryListFiltered(TrickTypeCategory, c);
    CategoryListFiltered(TrickBaseCategory, c);
    CategoryListFiltered(SideCategory, c);
    CategoryListFiltered(SpinCategory, c);
    SelectOneOfFour(CategoryAttributes(TrickTypeCategory), CategoryAttributes(TrickBaseCategory),
                    CategoryAttributes(SideCategory), CategoryAttributes(SpinCategory), c, CategoryAttributes(c));
  }

  lemma CategoryListFiltered(d: TrickAttributeType, c: TrickAttributeType)
    ensures OfCategory(CategoryAttributes(d), c) == if c == d then CategoryAttributes(d) else []
  {
    forall a | a in CategoryAttributes(d) ensures a.Category() == d {
      CategoryListMembership(a, d);
    }
    OfCategoryUniform(CategoryAttributes(d), c, d);
  }

  /** Builds the category-to-attributes dictionary by appending each attribute
      of `attrs` to the list of its category, creating the list on first use. */
  method GroupByType(attrs: seq<TrickAttribute>) returns (d: map<TrickAttributeType, seq<TrickAttribute>>)
    ensures forall c :: c in d <==> OfCategory(attrs, c) != []
    ensures forall c :: c in d ==> d[c] == OfCategory(attrs, c)
  {
    d := map[];
    var i := 0;
    while i < |attrs|
      invariant 0 <= i <= |attrs|
      invariant forall c :: c in d <==> OfCategory(attrs[..i], c) != []
      invariant forall c :: c in d ==> d[c] == OfCategory(attrs[..i], c)
    {
      var a := attrs[i];
      assert attrs[..i + 1][..i] == attrs[..i];
      if a.Category() !in d {
        d := d[a.Category() := [a]];
      } else {
        d := d[a.Category() := d[a.Category()] + [a]];
      }
      i := i + 1;
    }
    assert attrs[..i] == attrs;
  }

  /** The catalog's grouping: every category is a key, and its list is that
      category's catalog list in declaration order. */
  method TrickAttributesByType() returns (d: map<TrickAttributeType, seq<TrickAttribute>>)
    ensures forall c :: c in d && d[c] == CategoryAttributes(c)
    ensures forall c :: d[c] != []
  {
    d := GroupByType(TrickAttributes());
    forall c: TrickAttributeType ensures OfCategory(TrickAttributes(), c) == CategoryAttributes(c) != [] {
      GroupedCatalog(c);
      match c
      case TrickTypeCategory => assert |TrickTypeAttributes()| == 2;
      case TrickBaseCategory => assert |TrickBaseAttributes()| == 9;
      case SideCategory => assert |TrickSideAttributes()| == 4;
      case SpinCategory => assert |TrickSpinAttributes()| == 10;
    }
  }
}
