/** Parsed JSON values and the field readers the validators share. */
module Json {
  import opened Common

  datatype Value =
    | Null
    | Bool(b: bool)
    | Num(n: real)
    | Str(s: string)
    | Arr(items: seq<Value>)
    | Obj(fields: map<string, Value>)

  type Fields = map<string, Value>

  /** Why a value was refused, and under which row. Message texts are not modelled. */
  datatype Problem =
    | NotAnObject
    | NotAnArray
    | TooManyRows
    | Required(field: string)
    | WrongType(field: string)
    | TooLong(field: string)
    | NotAllowed(field: string)
    | UnknownFields(names: set<string>)
    | InRow(index: nat, problem: Problem)

  /** Go's `unicode.IsSpace`. */
  predicate IsSpace(c: char) {
    var u := c as int;
    0x09 <= u <= 0x0d || u == 0x20 || u == 0x85 || u == 0xa0 || u == 0x1680 || 0x2000 <= u <= 0x200a ||
    u == 0x2028 || u == 0x2029 || u == 0x202f || u == 0x205f || u == 0x3000
  }

  /** The Unicode property White_Space, one by one. */
  lemma IsSpaceExact(c: char)
    ensures IsSpace(c) <==>
            c as int in {0x09, 0x0a, 0x0b, 0x0c, 0x0d, 0x20, 0x85, 0xa0, 0x1680, 0x2000, 0x2001, 0x2002, 0x2003, 0x2004,
                         0x2005, 0x2006, 0x2007, 0x2008, 0x2009, 0x200a, 0x2028, 0x2029, 0x202f, 0x205f, 0x3000}
  {
  }

  function TrimLeft(s: string): string {
    if s != [] && IsSpace(s[0]) then TrimLeft(s[1..]) else s
  }

  function TrimRight(s: string): string {
    if s != [] && IsSpace(s[|s| - 1]) then TrimRight(s[..|s| - 1]) else s
  }

  /** `strings.TrimSpace`. */
  function TrimSpace(s: string): string {
    TrimRight(TrimLeft(s))
  }

  predicate AllSpace(s: string) {
    forall i :: 0 <= i < |s| ==> IsSpace(s[i])
  }

  lemma {:induction false} TrimLeftEmpty(s: string)
    ensures TrimLeft(s) == [] <==> AllSpace(s)
  {
    if s != [] && IsSpace(s[0]) {
      TrimLeftEmpty(s[1..]);
      assert AllSpace(s[1..]) ==> forall i :: 1 <= i < |s| ==> s[i] == s[1..][i - 1];
    }
  }

  lemma {:induction false} TrimRightEmpty(s: string)
    ensures TrimRight(s) == [] <==> AllSpace(s)
  {
    if s != [] && IsSpace(s[|s| - 1]) {
      TrimRightEmpty(s[..|s| - 1]);
    }
  }

  lemma {:induction false} TrimLeftShape(s: string)
    ensures TrimLeft(s) == [] || !IsSpace(TrimLeft(s)[0])
  {
    if s != [] && IsSpace(s[0]) {
      TrimLeftShape(s[1..]);
    }
  }

  /** Trimming leaves nothing exactly when there is nothing but space. */
  lemma TrimSpaceEmpty(s: string)
    ensures TrimSpace(s) == [] <==> AllSpace(s)
  {
    TrimLeftEmpty(s);
    TrimLeftShape(s);
    TrimRightEmpty(TrimLeft(s));
  }

  /** Length of the UTF-8 encoding, Go's `len`; characters are Unicode scalar values, Go's runes. */
  function Utf8Length(s: string): nat {
    if s == [] then 0
    else
      var u := s[|s| - 1] as int;
      Utf8Length(s[..|s| - 1]) + if u < 0x80 then 1 else if u < 0x800 then 2 else if u < 0x10000 then 3 else 4
  }

  lemma {:induction false} Utf8LengthAdds(a: string, b: string)
    ensures Utf8Length(a + b) == Utf8Length(a) + Utf8Length(b)
    decreases |b|
  {
    if b == [] {
      assert a + b == a;
    } else {
      Utf8LengthAdds(a, b[..|b| - 1]);
      assert (a + b)[..|a + b| - 1] == a + b[..|b| - 1];
    }
  }

  /** One character takes the fewest bytes that hold it: their payloads are 7, 11, 16 and 21 bits. */
  lemma Utf8LengthLeast(c: char)
    requires c as int < 0x20_0000
    ensures var n, room := Utf8Length([c]), [0x80, 0x800, 0x1_0000, 0x20_0000];
            1 <= n <= 4 && (c as int) < room[n - 1] && (n > 1 ==> c as int >= room[n - 2])
  {
    assert [c][..0] == [];
  }

  /** `rowString`: a required string of at most `max` characters. */
  function RowString(fields: Fields, name: string, max: nat): Result<string, Problem> {
    if name !in fields then Err(Required(name))
    else if !fields[name].Str? then Err(WrongType(name))
    else if |fields[name].s| > max then Err(TooLong(name))
    else Ok(fields[name].s)
  }

  /** `rowBool`. */
  function RowBool(fields: Fields, name: string): Result<bool, Problem> {
    if name !in fields then Err(Required(name))
    else if !fields[name].Bool? then Err(WrongType(name))
    else Ok(fields[name].b)
  }

  /** A required string out of a fixed list. */
  function OneOf(fields: Fields, name: string, allowed: set<string>): Result<string, Problem> {
    if name !in fields then Err(Required(name))
    else if !fields[name].Str? then Err(WrongType(name))
    else if fields[name].s !in allowed then Err(NotAllowed(name))
    else Ok(fields[name].s)
  }
}
