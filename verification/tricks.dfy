/** The attribute vocabulary of a BladeDice trick: the two trick types (soul
    plate and H-block), the bases, sides and spins, and the tagged union
    `TrickAttribute` over the four categories. Every base, side and spin
    belongs to exactly one of the two trick types, through its
    `IsSoulPlateTrick` partition. */
module Tricks {

  /** The top-level family of a trick. */
  datatype TrickType = SoulPlate | HBlock
  {
    /** All cases, in declaration order. */
    static function AllCases(): (r: seq<TrickType>)
    {
      [SoulPlate, HBlock]
    }

    /** The other of the two trick types. */
    function Other(): (r: TrickType)
      ensures r != this
    {
      if this == SoulPlate then HBlock else SoulPlate
    }
  }

  datatype TrickBase = Soul | Acid | Mizou | Pornstar | Royale | Nugen | Unity | Backslide | Torque
  {
    static function AllCases(): (r: seq<TrickBase>)
    {
      [Soul, Acid, Mizou, Pornstar, Royale, Nugen, Unity, Backslide, Torque]
    }

    /** Whether the base is a soul-plate base (otherwise it is an H-block base). */
    predicate IsSoulPlateTrick() {
      match this
      case Soul | Acid | Mizou | Pornstar => true
      case Royale | Nugen | Unity | Backslide | Torque => false
    }
  }

  datatype Side = Soulside | Topside | Frontside | Backside
  {
    static function AllCases(): (r: seq<Side>)
    {
      [Soulside, Topside, Frontside, Backside]
    }

    predicate IsSoulPlateTrick() {
      match this
      case Soulside | Topside => true
      case Frontside | Backside => false
    }
  }

  datatype Spin = AlleyOop | Truespin | Inspin | Outspin | ThreeSixty | Hurricane | Fullcab | FullTrue
                | TwoSeventy | FakieTwoSeventy
  {
    static function AllCases(): (r: seq<Spin>)
    {
      [AlleyOop, Truespin, Inspin, Outspin, ThreeSixty, Hurricane, Fullcab, FullTrue, TwoSeventy, FakieTwoSeventy]
    }

    predicate IsSoulPlateTrick() {
      match this
      case AlleyOop | Truespin | Inspin | Outspin | ThreeSixty | Hurricane | Fullcab | FullTrue => true
      case TwoSeventy | FakieTwoSeventy => false
    }
  }

  /** The four categories of attributes (the source calls this the attribute's
      `type`; `type` is a keyword here). */
  datatype TrickAttributeType = TrickTypeCategory | TrickBaseCategory | SideCategory | SpinCategory
  {
    /** All categories, in display order. */
    static function AllCases(): (r: seq<TrickAttributeType>)
      ensures |r| == 4
      ensures r[0] == TrickTypeCategory && r[1] == TrickBaseCategory && r[2] == SideCategory && r[3] == SpinCategory
    {
      [TrickTypeCategory, TrickBaseCategory, SideCategory, SpinCategory]
    }

    /** The section title shown for the category. */
    function Name(): string {
      match this
      case TrickTypeCategory => "Types"
      case TrickBaseCategory => "Bases"
      case SideCategory => "Sides"
      case SpinCategory => "Spins"
    }
  }

  /** One toggleable attribute value. */
  datatype TrickAttribute =
    | TypeAttribute(trickType: TrickType)
    | BaseAttribute(trickBase: TrickBase)
    | SideAttribute(side: Side)
    | SpinAttribute(spin: Spin)
  {
    /** The category of the attribute. */
    function Category(): (c: TrickAttributeType)
      ensures c == TrickTypeCategory <==> TypeAttribute?
      ensures c == TrickBaseCategory <==> BaseAttribute?
      ensures c == SideCategory <==> SideAttribute?
      ensures c == SpinCategory <==> SpinAttribute?
    {
      match this
      case TypeAttribute(_) => TrickTypeCategory
      case BaseAttribute(_) => TrickBaseCategory
      case SideAttribute(_) => SideCategory
      case SpinAttribute(_) => SpinCategory
    }

    /** Whether the attribute belongs to the soul-plate family. */
    predicate IsSoulPlateAttribute()
      ensures TypeAttribute? ==> (IsSoulPlateAttribute() <==> trickType == SoulPlate)
      ensures BaseAttribute? ==> (IsSoulPlateAttribute() <==> trickBase.IsSoulPlateTrick())
      ensures SideAttribute? ==> (IsSoulPlateAttribute() <==> side.IsSoulPlateTrick())
      ensures SpinAttribute? ==> (IsSoulPlateAttribute() <==> spin.IsSoulPlateTrick())
    {
      match this
      case TypeAttribute(t) => t == SoulPlate
      case BaseAttribute(b) => b.IsSoulPlateTrick()
      case SideAttribute(s) => s.IsSoulPlateTrick()
      case SpinAttribute(s) => s.IsSoulPlateTrick()
    }

    /** Whether the attribute belongs to the family of trick type `t`. */
    predicate InFamily(t: TrickType) {
      IsSoulPlateAttribute() == (t == SoulPlate)
    }
  }

  /** A generated trick: one value of each category. */
  datatype Trick = Trick(trickType: TrickType, trickBase: TrickBase, side: Side, spin: Spin)

  /** `AllCases` lists every value of each enumeration. */
  lemma AllTrickTypesListed(t: TrickType)
    ensures t in TrickType.AllCases()
  {
    match t
    case SoulPlate => assert TrickType.AllCases()[0] == t;
    case HBlock => assert TrickType.AllCases()[1] == t;
  }

  lemma AllBasesListed(b: TrickBase)
    ensures b in TrickBase.AllCases()
  {
    var r := TrickBase.AllCases();
    match b
    case Soul => assert r[0] == b;
    case Acid => assert r[1] == b;
    case Mizou => assert r[2] == b;
    case Pornstar => assert r[3] == b;
    case Royale => assert r[4] == b;
    case Nugen => assert r[5] == b;
    case Unity => assert r[6] == b;
    case Backslide => assert r[7] == b;
    case Torque => assert r[8] == b;
  }

  lemma AllSidesListed(s: Side)
    ensures s in Side.AllCases()
  {
    var r := Side.AllCases();
    match s
    case Soulside => assert r[0] == s;
    case Topside => assert r[1] == s;
    case Frontside => assert r[2] == s;
    case Backside => assert r[3] == s;
  }

  lemma AllSpinsListed(s: Spin)
    ensures s in Spin.AllCases()
  {
    var r := Spin.AllCases();
    match s
    case AlleyOop => assert r[0] == s;
    case Truespin => assert r[1] == s;
    case Inspin => assert r[2] == s;
    case Outspin => assert r[3] == s;
    case ThreeSixty => assert r[4] == s;
    case Hurricane => assert r[5] == s;
    case Fullcab => assert r[6] == s;
    case FullTrue => assert r[7] == s;
    case TwoSeventy => assert r[8] == s;
    case FakieTwoSeventy => assert r[9] == s;
  }

  /** No enumeration lists a case twice. */
  lemma AllCasesDistinct()
    ensures TrickType.AllCases()[0] != TrickType.AllCases()[1]
    ensures forall i, j :: 0 <= i < j < |TrickBase.AllCases()| ==> TrickBase.AllCases()[i] != TrickBase.AllCases()[j]
    ensures forall i, j :: 0 <= i < j < |Side.AllCases()| ==> Side.AllCases()[i] != Side.AllCases()[j]
    ensures forall i, j :: 0 <= i < j < |Spin.AllCases()| ==> Spin.AllCases()[i] != Spin.AllCases()[j]
  {
  }

  /** The soul-plate bases are exactly soul, acid, mizou and pornstar; the other five are H-block bases. */
  lemma BaseFamilies()
    ensures (set b | b in TrickBase.AllCases() && b.IsSoulPlateTrick()) == {Soul, Acid, Mizou, Pornstar}
    ensures (set b | b in TrickBase.AllCases() && !b.IsSoulPlateTrick()) == {Royale, Nugen, Unity, Backslide, Torque}
  {
    forall b: TrickBase ensures b in TrickBase.AllCases() { AllBasesListed(b); }
  }

  /** Two soul-plate sides and two H-block sides. */
  lemma SideFamilies()
    ensures (set s | s in Side.AllCases() && s.IsSoulPlateTrick()) == {Soulside, Topside}
    ensures (set s | s in Side.AllCases() && !s.IsSoulPlateTrick()) == {Frontside, Backside}
  {
    forall s: Side ensures s in Side.AllCases() { AllSidesListed(s); }
  }

  /** Eight soul-plate spins and two H-block spins. */
  lemma SpinFamilies()
    ensures (set s | s in Spin.AllCases() && s.IsSoulPlateTrick())
         == {AlleyOop, Truespin, Inspin, Outspin, ThreeSixty, Hurricane, Fullcab, FullTrue}
    ensures (set s | s in Spin.AllCases() && !s.IsSoulPlateTrick()) == {TwoSeventy, FakieTwoSeventy}
  {
    forall s: Spin ensures s in Spin.AllCases() { AllSpinsListed(s); }
  }

  /** Category names are the four section titles and tell the categories apart. */
  lemma CategoryNames()
    ensures TrickTypeCategory.Name() == "Types" && TrickBaseCategory.Name() == "Bases"
    ensures SideCategory.Name() == "Sides" && SpinCategory.Name() == "Spins"
    ensures forall c: TrickAttributeType, d: TrickAttributeType :: c.Name() == d.Name() ==> c == d
  {
  }

  /** A witness of each (category, family) group: every group is non-empty. */
  function FamilyBase(t: TrickType): (b: TrickBase)
    ensures b.IsSoulPlateTrick() <==> t == SoulPlate
  {
    if t == SoulPlate then Soul else Royale
  }

  function FamilySide(t: TrickType): (s: Side)
    ensures s.IsSoulPlateTrick() <==> t == SoulPlate
  {
    if t == SoulPlate then Soulside else Frontside
  }

  function FamilySpin(t: TrickType): (s: Spin)
    ensures s.IsSoulPlateTrick() <==> t == SoulPlate
  {
    if t == SoulPlate then AlleyOop else TwoSeventy
  }
}
