/** The host graph store as the identifier engine sees it: entities and their
    properties, Java's 64-bit longs and their decimal rendering, and the
    transaction diff handed to a commit hook. */
module Host {

  /** Bounds of Java's `long`. */
  const MinLong: int := -0x8000_0000_0000_0000
  const MaxLong: int := 0x7FFF_FFFF_FFFF_FFFF

  type Long = x: int | MinLong <= x <= MaxLong

  /** The host's own (non-negative) entity id. */
  type EntityId = nat

  /** Nodes and relationships live in separate identifier namespaces. */
  datatype Kind = Node | Relationship

  datatype EntityRef = EntityRef(kind: Kind, id: EntityId)

  /** A property value: a String or a Long (the two types identifiers take). */
  datatype Value = Str(s: string) | Num(n: Long)

  type Props = map<string, Value>

  // ---------------------------------------------------------------------
  // Decimal rendering (String.valueOf(long)) and its inverse
  // ---------------------------------------------------------------------

  predicate IsDigit(c: char) { '0' <= c <= '9' }

  function Digit(d: int): (c: char)
    requires 0 <= d < 10
    ensures IsDigit(c) && c as int - '0' as int == d
  {
    (d + '0' as int) as char
  }

  /** The decimal digits of a non-negative number, most significant first. */
  function Digits(n: nat): (s: string)
    ensures |s| > 0
    ensures forall i :: 0 <= i < |s| ==> IsDigit(s[i])
    decreases n
  {
    if n < 10 then [Digit(n)] else Digits(n / 10) + [Digit(n % 10)]
  }

  /** `String.valueOf(long)`: an optional minus sign followed by the digits. */
  function DecimalString(n: int): (s: string)
    ensures |s| > 0
    ensures n >= 0 ==> forall i :: 0 <= i < |s| ==> IsDigit(s[i])
    ensures n < 0 ==> s[0] == '-'
  {
    if n < 0 then "-" + Digits(-n) else Digits(n)
  }

  /** Reads a string of decimal digits back as a number. */
  function ParseDigits(s: string): nat
    requires forall i :: 0 <= i < |s| ==> IsDigit(s[i])
  {
    if s == [] then 0
    else
      assert IsDigit(s[|s| - 1]);
      ParseDigits(s[..|s| - 1]) * 10 + (s[|s| - 1] as int - '0' as int)
  }

  /** Reads the output of `DecimalString` back. */
  function ParseDecimal(s: string): int
    requires |s| > 0
    requires s[0] == '-' ==> forall i :: 1 <= i < |s| ==> IsDigit(s[i])
    requires s[0] != '-' ==> forall i :: 0 <= i < |s| ==> IsDigit(s[i])
  {
    if s[0] == '-' then -(ParseDigits(s[1..]) as int) else ParseDigits(s)
  }

  lemma {:induction false} DigitsRoundTrip(n: nat)
    ensures ParseDigits(Digits(n)) == n
    decreases n
  {
    if n >= 10 {
      var s := Digits(n);
      assert s[..|s| - 1] == Digits(n / 10);
      DigitsRoundTrip(n / 10);
    }
  }

  /** The decimal rendering loses nothing: parsing it gives the number back. */
  lemma DecimalRoundTrip(n: int)
    ensures ParseDecimal(DecimalString(n)) == n
  {
    if n < 0 {
      var s := DecimalString(n);
      assert s[1..] == Digits(-n);
      DigitsRoundTrip(-n);
    } else {
      DigitsRoundTrip(n);
    }
  }

  /** Distinct numbers render as distinct strings. */
  lemma DecimalStringInjective(a: int, b: int)
    ensures DecimalString(a) == DecimalString(b) ==> a == b
  {
    DecimalRoundTrip(a);
    DecimalRoundTrip(b);
  }

  /** Java's `toString()` of a property value. */
  function ToString(v: Value): string
  {
    match v
    case Str(s) => s
    case Num(n) => DecimalString(n)
  }

  // ---------------------------------------------------------------------
  // The transaction diff a commit hook receives
  // ---------------------------------------------------------------------

  /** Neo4j's NotFoundException, with its message. */
  datatype NotFoundException = NotFound(message: string)

  /** Java `int` arithmetic: reduce to the 32-bit two's-complement range. */
  function Int32(x: int): (r: int)
    ensures -0x8000_0000 <= r < 0x8000_0000
    ensures (r - x) % 0x1_0000_0000 == 0
  {
    (x + 0x8000_0000) % 0x1_0000_0000 - 0x8000_0000
  }

  /** Java `String.hashCode`: `31 * h + c` over the characters, in `int`
      arithmetic (one char per UTF-16 code unit). */
  function StringHash(s: string): (h: int)
    ensures -0x8000_0000 <= h < 0x8000_0000
  {
    if s == [] then 0 else Int32(31 * StringHash(s[..|s| - 1]) + s[|s| - 1] as int)
  }

  /** A changed entity: its properties before and after the transaction. */
  datatype Change = Change(id: EntityId, previous: Props, current: Props)

  /** What one transaction did to the entities of one kind. */
  datatype EntityChanges = EntityChanges(created: seq<EntityId>, deleted: seq<EntityId>, changed: seq<Change>)

  /** The diff of a transaction, nodes and relationships separately. */
  datatype TransactionData = TransactionData(nodes: EntityChanges, relationships: EntityChanges)

  function ChangesOf(tx: TransactionData, kind: Kind): EntityChanges
  {
    match kind
    case Node => tx.nodes
    case Relationship => tx.relationships
  }

  // ---------------------------------------------------------------------
  // The graph itself
  // ---------------------------------------------------------------------

  /** The entities visible inside the committing transaction and their properties. */
  class Database {
    var entities: map<EntityRef, Props>

    constructor (entities: map<EntityRef, Props>)
      ensures this.entities == entities
    {
      this.entities := entities;
    }

    /** `PropertyContainer.setProperty`: writes one property of an existing entity. */
    method SetProperty(ref: EntityRef, key: string, value: Value)
      requires ref in entities
      modifies this
      ensures entities == old(entities)[ref := old(entities)[ref][key := value]]
    {
      entities := entities[ref := entities[ref][key := value]];
    }
  }
}
