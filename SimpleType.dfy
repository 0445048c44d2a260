/**
 * The fixed table of value types the generator recognises, each with its
 * value class, the path class it is rendered as and the full path type.
 */
module SimpleTypes {
  import opened Wrappers
  import opened Names
  import opened Collections

  datatype SimpleType =
    | CHAR | STRING | UUID
    | SHORT | INT | LONG | BIG_INTEGER | FLOAT | DOUBLE | BIG_DECIMAL
    | BOOLEAN
    | LOCAL_DATE | ZONED_DATE_TIME | LOCAL_DATE_TIME | LOCAL_TIME
    | LOCALE
  {
    /** The value class an entry stands for (`className`). */
    function ValueClassName(): (r: ClassName)
      ensures r.packageName != CollectionsPackage && r != ArrayClass
    {
      match this
      case CHAR => ClassName(KotlinPackage, "Char")
      case STRING => ClassName(KotlinPackage, "String")
      case UUID => ClassName("java.util", "UUID")
      case SHORT => ClassName(KotlinPackage, "Short")
      case INT => ClassName(KotlinPackage, "Int")
      case LONG => ClassName(KotlinPackage, "Long")
      case BIG_INTEGER => ClassName("java.math", "BigInteger")
      case FLOAT => ClassName(KotlinPackage, "Float")
      case DOUBLE => ClassName(KotlinPackage, "Double")
      case BIG_DECIMAL => ClassName("java.math", "BigDecimal")
      case BOOLEAN => ClassName(KotlinPackage, "Boolean")
      case LOCAL_DATE => ClassName("java.time", "LocalDate")
      case ZONED_DATE_TIME => ClassName("java.time", "ZonedDateTime")
      case LOCAL_DATE_TIME => ClassName("java.time", "LocalDateTime")
      case LOCAL_TIME => ClassName("java.time", "LocalTime")
      case LOCALE => ClassName("java.util", "Locale")
    }

    /** The path class an entry is rendered as (`pathClassName`). */
    function PathClassName(): (r: ClassName)
      ensures r.packageName == DslPackage
    {
      match this
      case CHAR | UUID => ClassName(DslPackage, "ComparablePath")
      case STRING => ClassName(DslPackage, "StringPath")
      case SHORT | INT | LONG | BIG_INTEGER | FLOAT | DOUBLE | BIG_DECIMAL => ClassName(DslPackage, "NumberPath")
      case BOOLEAN => ClassName(DslPackage, "BooleanPath")
      case LOCAL_DATE => ClassName(DslPackage, "DatePath")
      case ZONED_DATE_TIME | LOCAL_DATE_TIME => ClassName(DslPackage, "DateTimePath")
      case LOCAL_TIME => ClassName(DslPackage, "TimePath")
      case LOCALE => SimplePathClass
    }

    /** Whether the path class takes the value class as its type argument. */
    predicate IsParameterized()
    {
      !(STRING? || BOOLEAN?)
    }

    /** The full path type (`pathTypeName`). */
    function PathTypeName(): (r: TypeName)
      ensures r.Parameterized? <==> IsParameterized()
      ensures r == Plain(PathClassName()) || r == Parameterized(PathClassName(), [Plain(ValueClassName())])
    {
      match this
      case CHAR => Parameterized(ClassName(DslPackage, "ComparablePath"), [Plain(ClassName(KotlinPackage, "Char"))])
      case STRING => Plain(ClassName(DslPackage, "StringPath"))
      case UUID => Parameterized(ClassName(DslPackage, "ComparablePath"), [Plain(ClassName("java.util", "UUID"))])
      case SHORT => Parameterized(ClassName(DslPackage, "NumberPath"), [Plain(ClassName(KotlinPackage, "Short"))])
      case INT => Parameterized(ClassName(DslPackage, "NumberPath"), [Plain(ClassName(KotlinPackage, "Int"))])
      case LONG => Parameterized(ClassName(DslPackage, "NumberPath"), [Plain(ClassName(KotlinPackage, "Long"))])
      case BIG_INTEGER => Parameterized(ClassName(DslPackage, "NumberPath"), [Plain(ClassName("java.math", "BigInteger"))])
      case FLOAT => Parameterized(ClassName(DslPackage, "NumberPath"), [Plain(ClassName(KotlinPackage, "Float"))])
      case DOUBLE => Parameterized(ClassName(DslPackage, "NumberPath"), [Plain(ClassName(KotlinPackage, "Double"))])
      case BIG_DECIMAL => Parameterized(ClassName(DslPackage, "NumberPath"), [Plain(ClassName("java.math", "BigDecimal"))])
      case BOOLEAN => Plain(ClassName(DslPackage, "BooleanPath"))
      case LOCAL_DATE => Parameterized(ClassName(DslPackage, "DatePath"), [Plain(ClassName("java.time", "LocalDate"))])
      case ZONED_DATE_TIME =>
        Parameterized(ClassName(DslPackage, "DateTimePath"), [Plain(ClassName("java.time", "ZonedDateTime"))])
      case LOCAL_DATE_TIME =>
        Parameterized(ClassName(DslPackage, "DateTimePath"), [Plain(ClassName("java.time", "LocalDateTime"))])
      case LOCAL_TIME => Parameterized(ClassName(DslPackage, "TimePath"), [Plain(ClassName("java.time", "LocalTime"))])
      case LOCALE => Parameterized(SimplePathClass, [Plain(ClassName("java.util", "Locale"))])
    }

    /** The source-side class names that select this entry (`detectedClassNames`). */
    function DetectedClassNames(): set<ClassName>
    {
      {ValueClassName()}
    }
  }

  /** `SimpleType.entries`, in declaration order. */
  const Entries: seq<SimpleType> := [
    CHAR, STRING, UUID, SHORT, INT, LONG, BIG_INTEGER, FLOAT, DOUBLE, BIG_DECIMAL,
    BOOLEAN, LOCAL_DATE, ZONED_DATE_TIME, LOCAL_DATE_TIME, LOCAL_TIME, LOCALE
  ]

  /** The position of an entry in `Entries` (its ordinal). */
  function Ordinal(e: SimpleType): (k: nat)
    ensures k < |Entries| && Entries[k] == e
  {
    match e
    case CHAR => 0
    case STRING => 1
    case UUID => 2
    case SHORT => 3
    case INT => 4
    case LONG => 5
    case BIG_INTEGER => 6
    case FLOAT => 7
    case DOUBLE => 8
    case BIG_DECIMAL => 9
    case BOOLEAN => 10
    case LOCAL_DATE => 11
    case ZONED_DATE_TIME => 12
    case LOCAL_DATE_TIME => 13
    case LOCAL_TIME => 14
    case LOCALE => 15
  }

  lemma EntriesDistinct()
    ensures forall i, j :: 0 <= i < j < |Entries| ==> Entries[i] != Entries[j]
  {
    forall i, j | 0 <= i < j < |Entries| ensures Entries[i] != Entries[j] {
      assert Ordinal(Entries[i]) == i;
    }
  }

  /** The table has sixteen entries, each exactly once. */
  lemma EntriesComplete()
    ensures |Entries| == 16
    ensures forall e: SimpleType :: e in Entries
    ensures forall i, j :: 0 <= i < j < |Entries| ==> Entries[i] != Entries[j]
  {
    forall e: SimpleType ensures e in Entries {
      assert Entries[Ordinal(e)] == e;
    }
    EntriesDistinct();
  }

  /** No two entries share a value class, so a lookup finds at most one entry. */
  lemma ValueClassNamesDistinct(e1: SimpleType, e2: SimpleType)
    requires e1 != e2
    ensures e1.ValueClassName() != e2.ValueClassName()
    ensures e1.DetectedClassNames() !! e2.DetectedClassNames()
  {
  }

  /** The numeric entries render as `NumberPath<value class>`. */
  lemma NumericEntries(e: SimpleType)
    requires e in [SHORT, INT, LONG, BIG_INTEGER, FLOAT, DOUBLE, BIG_DECIMAL]
    ensures e.PathClassName() == ClassName(DslPackage, "NumberPath")
    ensures e.PathTypeName() == Parameterized(ClassName(DslPackage, "NumberPath"), [Plain(e.ValueClassName())])
  {
  }

  /** STRING and BOOLEAN have an unparameterised path type equal to their path class. */
  lemma UnparameterizedEntries(e: SimpleType)
    ensures e.PathTypeName() == Plain(e.PathClassName()) <==> e == STRING || e == BOOLEAN
    ensures e == STRING ==> e.PathClassName() == ClassName(DslPackage, "StringPath")
    ensures e == BOOLEAN ==> e.PathClassName() == ClassName(DslPackage, "BooleanPath")
  {
  }

  /** Dates, date-times and times have their own path classes. */
  lemma TemporalEntries()
    ensures LOCAL_DATE.PathClassName() == ClassName(DslPackage, "DatePath")
    ensures ZONED_DATE_TIME.PathClassName() == ClassName(DslPackage, "DateTimePath")
    ensures LOCAL_DATE_TIME.PathClassName() == ClassName(DslPackage, "DateTimePath")
    ensures LOCAL_TIME.PathClassName() == ClassName(DslPackage, "TimePath")
  {
  }

  /** Every parameterised entry's path type is its path class applied to its value class. */
  lemma ParameterizedEntries(e: SimpleType)
    requires e != STRING && e != BOOLEAN
    ensures e.PathTypeName() == Parameterized(e.PathClassName(), [Plain(e.ValueClassName())])
  {
  }

  /** The detection predicate of entry lookup: `detectedClassNames.contains(c)`. */
  function Detects(c: ClassName): SimpleType -> bool
  {
    (e: SimpleType) => c in e.DetectedClassNames()
  }

  /**
   * The table lookup of the classifier: the entry whose detected class names
   * contain `c`. Scanning the table in order finds the same entry as
   * `singleOrNull`, because no two entries detect the same name
   * (LookupIsSingleOrNull).
   */
  function Lookup(c: ClassName): (r: Option<SimpleType>)
    ensures forall e: SimpleType :: r == Some(e) <==> c == e.ValueClassName()
  {
    var r := FirstDetecting(Entries, c);
    assert forall e: SimpleType :: c == e.ValueClassName() ==> r == Some(e) by {
      forall e: SimpleType | c == e.ValueClassName() ensures r == Some(e) {
        assert Detects(c)(Entries[Ordinal(e)]);
        if r != Some(e) {
          ValueClassNamesDistinct(r.value, e);
        }
      }
    }
    r
  }

  /** The first of `entries` that detects `c`. */
  function FirstDetecting(entries: seq<SimpleType>, c: ClassName): (r: Option<SimpleType>)
    ensures r.Some? ==> r.value in entries && Detects(c)(r.value)
    ensures r.None? ==> forall k :: 0 <= k < |entries| ==> !Detects(c)(entries[k])
  {
    if entries == [] then None
    else if Detects(c)(entries[0]) then Some(entries[0])
    else FirstDetecting(entries[1..], c)
  }

  /** The lookup is `SimpleType.entries.singleOrNull { it.detectedClassNames.contains(c) }`. */
  lemma LookupIsSingleOrNull(c: ClassName)
    ensures Lookup(c) == SingleOrNull(Entries, Detects(c))
  {
    var r := SingleOrNull(Entries, Detects(c));
    LookupExact(c, r);
    if Lookup(c).Some? {
      assert r == Some(Lookup(c).value);
    } else if r.Some? {
      assert r.value.ValueClassName() == c;
    }
  }

  lemma LookupExact(c: ClassName, r: Option<SimpleType>)
    requires r == SingleOrNull(Entries, Detects(c))
    ensures forall e: SimpleType :: r == Some(e) <==> c == e.ValueClassName()
  {
    forall e: SimpleType | c == e.ValueClassName()
      ensures r == Some(e)
    {
      LookupFinds(c, e, r);
    }
  }

  lemma LookupFinds(c: ClassName, e: SimpleType, r: Option<SimpleType>)
    requires r == SingleOrNull(Entries, Detects(c))
    requires c == e.ValueClassName()
    ensures r == Some(e)
  {
    EntriesDistinct();
    assert Entries[Ordinal(e)] == e;
    SingleDetects(Entries, c, e);
  }

  lemma SingleDetects(s: seq<SimpleType>, c: ClassName, e: SimpleType)
    requires forall i, j :: 0 <= i < j < |s| ==> s[i] != s[j]
    requires e in s && c == e.ValueClassName()
    ensures SingleOrNull(s, Detects(c)) == Some(e)
  {
    FilterDetectsAtMostOne(s, c);
    var k :| 0 <= k < |s| && s[k] == e;
    assert Detects(c)(s[k]);
  }

  lemma {:induction false} FilterDetectsAtMostOne(s: seq<SimpleType>, c: ClassName)
    requires forall i, j :: 0 <= i < j < |s| ==> s[i] != s[j]
    ensures |Filter(s, Detects(c))| <= 1
  {
    if s != [] {
      var rest := Filter(s[1..], Detects(c));
      FilterDetectsAtMostOne(s[1..], c);
      if |rest| > 0 {
        assert rest[0] in s[1..] && Detects(c)(rest[0]);
        assert s[0] !in s[1..];
        ValueClassNamesDistinct(s[0], rest[0]);
      }
    }
  }
}
