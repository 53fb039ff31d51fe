/**
 Type specs of `src/pva/value.rs`: printing a descriptor as nested Python tuples
 (`aspy`) and parsing such a spec back (`desc_from_py`, `Type(spec)`).
 */
module TypeSpec {
  import opened Common
  import opened PvDesc

  /** The Python objects a spec is made of. */
  datatype Spec =
    | SNone
    | SStr(s: string)
    | STuple(items: seq<Spec>)
    | SList(items: seq<Spec>)
    | SType(desc: FieldDesc)
    | SOther

  datatype SpecError = BadType | BadValue

  function ScalarCode(st: ScalarType): char {
    match st
    case Boolean => '?'
    case Byte => 'b'
    case UByte => 'B'
    case Short => 'h'
    case UShort => 'H'
    case Int => 'i'
    case UInt => 'I'
    case Long => 'l'
    case ULong => 'L'
    case Float => 'f'
    case Double => 'd'
    case String => 's'
  }

  function ScalarFromCode(c: char): (r: Option<ScalarType>)
    ensures r.Some? ==> ScalarCode(r.value) == c
  {
    match c
    case '?' => Some(Boolean)
    case 'b' => Some(Byte)
    case 'B' => Some(UByte)
    case 'h' => Some(Short)
    case 'H' => Some(UShort)
    case 'i' => Some(Int)
    case 'I' => Some(UInt)
    case 'l' => Some(Long)
    case 'L' => Some(ULong)
    case 'f' => Some(Float)
    case 'd' => Some(Double)
    case 's' => Some(String)
    case _ => None
  }

  // ---- Printing ----

  function DescToPy(d: FieldDesc): Spec {
    match d
    case Scalar(st) => SStr([ScalarCode(st)])
    case ScalarArray(st) => SStr(['a', ScalarCode(st)])
    case Variant => SStr("v")
    case VariantArray => SStr("av")
    case Structure(id, fields) => MembersToPy("S", id, fields)
    case StructureArray(id, fields) => MembersToPy("aS", id, fields)
    case Union(id, variants) => MembersToPy("U", id, variants)
    case UnionArray(id, variants) => MembersToPy("aU", id, variants)
  }

  function MembersToPy(code: string, id: string, ms: Members): Spec
    decreases ms, 1
  {
    STuple([SStr(code), if id == "" then SNone else SStr(id), SList(PairsToPy(ms))])
  }

  function PairsToPy(ms: Members): seq<Spec>
    decreases ms, 0
  {
    match ms
    case NoMember => []
    case Member(name, d, rest) => [STuple([SStr(name), DescToPy(d)])] + PairsToPy(rest)
  }

  // ---- Parsing ----

  function DescFromPy(spec: Spec): Result<FieldDesc, SpecError> {
    match spec
    case SType(d) => Ok(d)
    case SStr(code) => DescFromCode(code)
    case STuple(items) =>
      if |items| != 3 then Err(BadValue)
      else if !items[0].SStr? then Err(BadType)
      else if !(items[1].SNone? || items[1].SStr?) then Err(BadType)
      else
        var id := if items[1].SNone? then "" else items[1].s;
        (match MembersFromPy(items[2])
         case Err(e) => Err(e)
         case Ok(ms) => Compound(items[0].s, id, ms))
    case _ => Err(BadType)
  }

  function DescFromCode(code: string): Result<FieldDesc, SpecError> {
    if code == "v" then Ok(Variant)
    else if code == "av" then Ok(VariantArray)
    else if |code| == 1 then
      match ScalarFromCode(code[0])
      case None => Err(BadValue)
      case Some(st) => Ok(Scalar(st))
    else if |code| == 2 && code[0] == 'a' then
      match ScalarFromCode(code[1])
      case None => Err(BadValue)
      case Some(st) => Ok(ScalarArray(st))
    else Err(BadValue)
  }

  function Compound(code: string, id: string, ms: Members): Result<FieldDesc, SpecError> {
    if code == "S" then Ok(Structure(id, ms))
    else if code == "aS" then Ok(StructureArray(id, ms))
    else if code == "U" then Ok(Union(id, ms))
    else if code == "aU" then Ok(UnionArray(id, ms))
    else Err(BadValue)
  }

  /** A structure `Type`, or anything that iterates over `(name, spec)` tuples. */
  function MembersFromPy(spec: Spec): Result<Members, SpecError> {
    match spec
    case SType(d) => if d.Structure? then Ok(d.fields) else Err(BadType)
    case STuple(items) => PairsFromPy(items)
    case SList(items) => PairsFromPy(items)
    case SStr(s) => if s == "" then Ok(NoMember) else Err(BadType) // its characters are not tuples
    case _ => Err(BadType)
  }

  function PairsFromPy(items: seq<Spec>): Result<Members, SpecError> {
    if items == [] then Ok(NoMember)
    else
      var item := items[0];
      if !item.STuple? || |item.items| != 2 || !item.items[0].SStr? then Err(BadType)
      else
        match DescFromPy(item.items[1])
        case Err(e) => Err(e)
        case Ok(d) =>
          match PairsFromPy(items[1..])
          case Err(e) => Err(e)
          case Ok(rest) => Ok(Member(item.items[0].s, d, rest))
  }

  /** A `(code, id, members)` tuple, as opposed to a three-member list. */
  predicate IsCompoundSpec(spec: Spec) {
    spec.STuple? && |spec.items| == 3 && spec.items[0].SStr?
  }

  /** `Type(spec, id=None)`. */
  function TypeNew(spec: Spec, id: Option<string>): Result<FieldDesc, SpecError> {
    var parsed :=
      if spec.SType? || IsCompoundSpec(spec) then DescFromPy(spec)
      else
        match MembersFromPy(spec)
        case Err(e) => Err(e)
        case Ok(ms) => Ok(Structure(if id.Some? then id.value else "", ms));
    match parsed
    case Err(e) => Err(e)
    case Ok(d) => if d.Structure? && id.Some? then Ok(Structure(id.value, d.fields)) else Ok(d)
  }

  // ---- Round trips ----

  lemma {:induction false} CodeRoundTrip(st: ScalarType)
    ensures ScalarFromCode(ScalarCode(st)) == Some(st)
    ensures DescFromCode([ScalarCode(st)]) == Ok(Scalar(st))
    ensures DescFromCode(['a', ScalarCode(st)]) == Ok(ScalarArray(st))
  {
    assert ['a', ScalarCode(st)][1] == ScalarCode(st);
    assert "av"[1] == 'v' && "v"[0] == 'v';
  }

  /** Parsing what was printed gives the descriptor back, however deeply it is nested. */
  lemma {:induction false} SpecRoundTrip(d: FieldDesc)
    ensures DescFromPy(DescToPy(d)) == Ok(d)
  {
    match d
    case Scalar(st) => CodeRoundTrip(st);
    case ScalarArray(st) => CodeRoundTrip(st);
    case Variant =>
    case VariantArray =>
    case Structure(id, fields) => CompoundRoundTrip("S", id, fields);
    case StructureArray(id, fields) => CompoundRoundTrip("aS", id, fields);
    case Union(id, variants) => CompoundRoundTrip("U", id, variants);
    case UnionArray(id, variants) => CompoundRoundTrip("aU", id, variants);
  }

  lemma {:induction false} CompoundRoundTrip(code: string, id: string, ms: Members)
    ensures DescFromPy(MembersToPy(code, id, ms)) == Compound(code, id, ms)
    decreases ms, 1
  {
    PairsRoundTrip(ms);
    var items := MembersToPy(code, id, ms).items;
    assert items[2] == SList(PairsToPy(ms));
    assert MembersFromPy(items[2]) == Ok(ms);
  }

  lemma {:induction false} PairsRoundTrip(ms: Members)
    ensures PairsFromPy(PairsToPy(ms)) == Ok(ms)
    decreases ms, 0
  {
    if ms.Member? {
      SpecRoundTrip(ms.desc);
      PairsRoundTrip(ms.rest);
      var item := STuple([SStr(ms.name), DescToPy(ms.desc)]);
      assert item.items[1] == DescToPy(ms.desc);
      assert PairsToPy(ms)[0] == item && PairsToPy(ms)[1..] == PairsToPy(ms.rest);
    }
  }

  /** Different descriptors print differently. */
  lemma {:induction false} PrintingIsInjective(d: FieldDesc, e: FieldDesc)
    requires DescToPy(d) == DescToPy(e)
    ensures d == e
  {
    SpecRoundTrip(d);
    SpecRoundTrip(e);
  }

  /** Written the way printing writes: no `Type` inside, no empty id, members as a list. */
  predicate Plain(spec: Spec) {
    match spec
    case SStr(_) => true
    case STuple(items) =>
      && |items| == 3 && items[0].SStr? && (items[1].SNone? || (items[1].SStr? && items[1].s != ""))
      && items[2].SList? && PlainPairs(items[2].items)
    case _ => false
  }

  predicate PlainPairs(items: seq<Spec>) {
    items != [] ==>
      && items[0].STuple? && |items[0].items| == 2 && items[0].items[0].SStr? && Plain(items[0].items[1])
      && PlainPairs(items[1..])
  }

  /** Parsing accepts a spec of that form exactly if it is what some descriptor prints as, and gives
      that descriptor. */
  lemma {:induction false} ParsedIffPrinted(spec: Spec, d: FieldDesc)
    requires Plain(spec)
    ensures DescFromPy(spec) == Ok(d) <==> DescToPy(d) == spec
  {
    SpecRoundTrip(d);
    if DescFromPy(spec) == Ok(d) {
      ParsedPrints(spec);
    }
  }

  lemma {:induction false} ParsedPrints(spec: Spec)
    requires Plain(spec) && DescFromPy(spec).Ok?
    ensures DescToPy(DescFromPy(spec).value) == spec
    decreases spec
  {
    match spec
    case SStr(code) => CodePrints(code);
    case STuple(items) =>
      PairsPrint(items[2].items);
      assert items == [items[0], items[1], items[2]];
  }

  lemma CodePrints(code: string)
    requires DescFromCode(code).Ok?
    ensures DescToPy(DescFromCode(code).value) == SStr(code)
  {
    if |code| == 1 {
      assert code == [code[0]];
    } else if |code| == 2 {
      assert code == [code[0], code[1]];
    }
  }

  lemma {:induction false} PairsPrint(items: seq<Spec>)
    requires PlainPairs(items) && PairsFromPy(items).Ok?
    ensures PairsToPy(PairsFromPy(items).value) == items
    decreases items
  {
    if items != [] {
      var pair := items[0].items;
      assert pair == [pair[0], pair[1]];
      ParsedPrints(pair[1]);
      PairsPrint(items[1..]);
      assert items == [items[0]] + items[1..];
    }
  }

  predicate IsCompound(d: FieldDesc) {
    d.Structure? || d.StructureArray? || d.Union? || d.UnionArray?
  }

  /** `Type(t.aspy())` gives the type back exactly when the type is a compound: a bare code
      string is taken for a member list, and refused. */
  lemma {:induction false} TypeRoundTripIff(d: FieldDesc)
    ensures TypeNew(DescToPy(d), None) == Ok(d) <==> IsCompound(d)
    ensures !IsCompound(d) ==> TypeNew(DescToPy(d), None) == Err(BadType)
  {
    SpecRoundTrip(d);
    if IsCompound(d) {
      assert IsCompoundSpec(DescToPy(d));
    }
  }

  /** An explicit id replaces a structure's own and leaves its members alone. */
  lemma {:induction false} IdOverrides(id: string, fields: Members, newId: string)
    ensures TypeNew(DescToPy(Structure(id, fields)), Some(newId)) == Ok(Structure(newId, fields))
    ensures TypeNew(SList(PairsToPy(fields)), Some(newId)) == Ok(Structure(newId, fields))
    ensures TypeNew(SList(PairsToPy(fields)), None) == Ok(Structure("", fields))
    ensures TypeNew(SType(Structure(id, fields)), None) == Ok(Structure(id, fields))
  {
    SpecRoundTrip(Structure(id, fields));
    PairsRoundTrip(fields);
    assert IsCompoundSpec(DescToPy(Structure(id, fields)));
  }
}
