/** The duplicate-key checker: a recursion over the tokens of a streaming JSON
    decoder, whose own state decides which token may come next. */
module JsonKeys {

  const MAX_DEPTH := 16

  // ---- JSON values and their text (section 4 of RFC 8259 for the names)

  /** Equal strings are equal numbers; `Bad` is text that is no lexeme. */
  datatype Lexeme = OpenObject | CloseObject | OpenArray | CloseArray | Comma | Colon | Text(value: nat) | Scalar | Bad

  datatype Stream = End | Then(head: Lexeme, tail: Stream)

  datatype Json = Atom | Str(text: nat) | Array(elements: Elements) | Object(members: Members)
  datatype Elements = NoElement | Element(value: Json, others: Elements)
  datatype Members = NoMember | Member(key: nat, value: Json, others: Members)

  function Length(s: Stream): nat {
    match s
    case End => 0
    case Then(_, tail) => 1 + Length(tail)
  }

  /** A value's text, followed by more. */
  function Render(v: Json, tail: Stream): Stream {
    match v
    case Atom => Then(Scalar, tail)
    case Str(t) => Then(Text(t), tail)
    case Array(es) => Then(OpenArray, RenderElements(es, true, Then(CloseArray, tail)))
    case Object(ms) => Then(OpenObject, RenderMembers(ms, true, Then(CloseObject, tail)))
  }

  function RenderElements(es: Elements, first: bool, tail: Stream): Stream {
    match es
    case NoElement => tail
    case Element(v, others) => Separated(first, Render(v, RenderElements(others, false, tail)))
  }

  function RenderMembers(ms: Members, first: bool, tail: Stream): Stream {
    match ms
    case NoMember => tail
    case Member(k, v, others) => Separated(first, Then(Text(k), Then(Colon, Render(v, RenderMembers(others, false, tail)))))
  }

  function Separated(first: bool, rest: Stream): Stream {
    if first then rest else Then(Comma, rest)
  }

  function Names(ms: Members): set<nat> {
    match ms
    case NoMember => {}
    case Member(k, _, others) => {k} + Names(others)
  }

  /** No object in the value repeats a member name. */
  predicate UniqueKeys(v: Json) {
    match v
    case Atom => true
    case Str(_) => true
    case Array(es) => UniqueInElements(es)
    case Object(ms) => UniqueInMembers(ms)
  }

  predicate UniqueInElements(es: Elements) {
    es.Element? ==> UniqueKeys(es.value) && UniqueInElements(es.others)
  }

  predicate UniqueInMembers(ms: Members) {
    ms.Member? ==> ms.key !in Names(ms.others) && UniqueKeys(ms.value) && UniqueInMembers(ms.others)
  }

  /** How many levels of nodes lie below the value's own. */
  function Height(v: Json): nat {
    match v
    case Atom => 0
    case Str(_) => 0
    case Array(es) => ElementsHeight(es)
    case Object(ms) => MembersHeight(ms)
  }

  function ElementsHeight(es: Elements): nat {
    match es
    case NoElement => 0
    case Element(v, others) => Max(1 + Height(v), ElementsHeight(others))
  }

  function MembersHeight(ms: Members): nat {
    match ms
    case NoMember => 0
    case Member(_, v, others) => Max(1 + Height(v), MembersHeight(others))
  }

  function Max(a: nat, b: nat): nat {
    if a < b then b else a
  }

  // ---- the decoder

  /** What may come next: a value, a separator, a name or an end. */
  datatype Place =
    | Top | ArrayStart | ArrayValue | ArrayComma | ObjectStart | ObjectKey | ObjectColon | ObjectValue | ObjectComma

  /** The places of the compounds around the next token, innermost first. */
  datatype Stack = Bottom | Within(place: Place, outer: Stack)

  datatype Cursor = Cursor(rest: Stream, place: Place, stack: Stack)

  datatype Token = Failed | Delim(mark: Lexeme) | Chars(text: nat) | Plain

  predicate ValueAllowed(p: Place) {
    p == Top || p == ArrayStart || p == ArrayValue || p == ObjectValue
  }

  function ValueEnd(p: Place): Place {
    if p == ArrayStart || p == ArrayValue then ArrayComma else if p == ObjectValue then ObjectComma else p
  }

  function Open(c: Cursor, place: Place): Cursor
    requires c.rest.Then?
  {
    Cursor(c.rest.tail, place, Within(c.place, c.stack))
  }

  function Close(c: Cursor): Cursor
    requires c.rest.Then? && c.stack.Within?
  {
    Cursor(c.rest.tail, ValueEnd(c.stack.place), c.stack.outer)
  }

  /** The next token, past the separators before it. */
  function Next(c: Cursor): (r: (Token, Cursor))
    ensures Length(r.1.rest) <= Length(c.rest) && (r.0 != Failed ==> Length(r.1.rest) < Length(c.rest))
    decreases c.rest
  {
    match c.rest
    case End => (Failed, c)
    case Then(head, tail) =>
      match head
      case OpenArray => if ValueAllowed(c.place) then (Delim(OpenArray), Open(c, ArrayStart)) else (Failed, c)
      case OpenObject => if ValueAllowed(c.place) then (Delim(OpenObject), Open(c, ObjectStart)) else (Failed, c)
      case CloseArray =>
        if (c.place == ArrayStart || c.place == ArrayComma) && c.stack.Within? then (Delim(CloseArray), Close(c)) else (Failed, c)
      case CloseObject =>
        if (c.place == ObjectStart || c.place == ObjectComma) && c.stack.Within? then (Delim(CloseObject), Close(c)) else (Failed, c)
      case Colon => if c.place == ObjectColon then Next(Cursor(tail, ObjectValue, c.stack)) else (Failed, c)
      case Comma =>
        if c.place == ArrayComma then Next(Cursor(tail, ArrayValue, c.stack))
        else if c.place == ObjectComma then Next(Cursor(tail, ObjectKey, c.stack))
        else (Failed, c)
      case Text(t) =>
        if c.place == ObjectStart || c.place == ObjectKey then (Chars(t), Cursor(tail, ObjectColon, c.stack))
        else if ValueAllowed(c.place) then (Chars(t), Cursor(tail, ValueEnd(c.place), c.stack))
        else (Failed, c)
      case Scalar => if ValueAllowed(c.place) then (Plain, Cursor(tail, ValueEnd(c.place), c.stack)) else (Failed, c)
      case Bad => (Failed, c)
  }

  predicate More(c: Cursor) {
    c.rest.Then? && c.rest.head != CloseArray && c.rest.head != CloseObject
  }

  // ---- the checker

  function CheckValue(c: Cursor, depth: nat): (r: (bool, Cursor))
    ensures Length(r.1.rest) <= Length(c.rest) && (r.0 ==> Length(r.1.rest) < Length(c.rest))
    decreases Length(c.rest), 0
  {
    if depth > MAX_DEPTH then (false, c)
    else
      var (t, d) := Next(c);
      match t
      case Failed => (false, d)
      case Chars(_) => (true, d)
      case Plain => (true, d)
      case Delim(mark) =>
        if mark == OpenObject then CheckMembers(d, depth, {})
        else if mark == OpenArray then CheckElements(d, depth)
        else (false, d)
  }

  function CheckElements(c: Cursor, depth: nat): (r: (bool, Cursor))
    ensures Length(r.1.rest) <= Length(c.rest)
    decreases Length(c.rest), 1
  {
    if More(c) then
      var (ok, d) := CheckValue(c, depth + 1);
      if ok then CheckElements(d, depth) else (false, d)
    else
      var (t, d) := Next(c);
      (t == Delim(CloseArray), d)
  }

  function CheckMembers(c: Cursor, depth: nat, seen: set<nat>): (r: (bool, Cursor))
    ensures Length(r.1.rest) <= Length(c.rest)
    decreases Length(c.rest), 1
  {
    if More(c) then
      var (t, d) := Next(c);
      if !t.Chars? || t.text in seen then (false, d)
      else
        var (ok, e) := CheckValue(d, depth + 1);
        if ok then CheckMembers(e, depth, seen + {t.text}) else (false, e)
    else
      var (t, d) := Next(c);
      (t == Delim(CloseObject), d)
  }

  /** One value, and then the end of the stream. */
  function KeysUnique(stream: Stream): bool {
    var (ok, d) := CheckValue(Cursor(stream, Top, Bottom), 0);
    ok && d.rest == End
  }

  // ---- where the checker is called

  predicate TakesValue(p: Place) {
    p == Top || p == ArrayStart || p == ArrayComma || p == ObjectColon
  }

  /** A value's text behind the separator its place needs, and the place it is
      then read at. */
  function Led(p: Place, rest: Stream): Stream {
    if p == ArrayComma then Then(Comma, rest) else if p == ObjectColon then Then(Colon, rest) else rest
  }

  function At(p: Place): Place {
    if p == ArrayComma then ArrayValue else if p == ObjectColon then ObjectValue else p
  }

  lemma LeadIsSkipped(rest: Stream, p: Place, stack: Stack)
    requires TakesValue(p)
    ensures Next(Cursor(Led(p, rest), p, stack)) == Next(Cursor(rest, At(p), stack))
  {}

  /** A token where a value is taken comes after its separator. */
  lemma LeadIsThere(c: Cursor) returns (rest: Stream)
    requires TakesValue(c.place) && Next(c).0 != Failed && Next(c).0 != Delim(CloseArray)
    ensures c.rest == Led(c.place, rest) && Next(c) == Next(Cursor(rest, At(c.place), c.stack))
  {
    rest := if c.place == ArrayComma || c.place == ObjectColon then c.rest.tail else c.rest;
    LeadIsSkipped(rest, c.place, c.stack);
  }

  /** A name where a member is taken comes after its comma. */
  lemma NameIsThere(c: Cursor)
    requires (c.place == ObjectStart || c.place == ObjectComma) && More(c) && Next(c).0.Chars?
    ensures var (t, d) := Next(c);
      && c.rest == Separated(c.place == ObjectStart, Then(Text(t.text), d.rest))
      && d.place == ObjectColon && d.stack == c.stack
  {
    if c.place == ObjectComma { assert Next(c) == Next(Cursor(c.rest.tail, ObjectKey, c.stack)); }
  }

  lemma NameIsNext(k: nat, rest: Stream, first: bool, stack: Stack)
    ensures var c := Cursor(Separated(first, Then(Text(k), rest)), if first then ObjectStart else ObjectComma, stack);
      More(c) && Next(c) == (Chars(k), Cursor(rest, ObjectColon, stack))
  {
    if !first { assert Next(Cursor(Then(Text(k), rest), ObjectKey, stack)) == (Chars(k), Cursor(rest, ObjectColon, stack)); }
  }

  /** The compound the cursor was in has ended. */
  predicate Ended(c: Cursor, e: Cursor) {
    c.stack.Within? && e.place == ValueEnd(c.stack.place) && e.stack == c.stack.outer
  }

  // ---- what is accepted is JSON with distinct names

  lemma ValueSound(c: Cursor, depth: nat) returns (v: Json)
    requires TakesValue(c.place) && CheckValue(c, depth).0
    ensures var e := CheckValue(c, depth).1;
      && c.rest == Led(c.place, Render(v, e.rest)) && UniqueKeys(v) && depth + Height(v) <= MAX_DEPTH
      && e.place == ValueEnd(At(c.place)) && e.stack == c.stack
    decreases Length(c.rest), 0
  {
    var (t, d) := Next(c);
    var rest := LeadIsThere(c);
    match t
    case Failed =>
    case Plain => v := Atom;
    case Chars(text) => v := Str(text);
    case Delim(mark) =>
      if mark == OpenArray {
        var es := ElementsSound(d, depth);
        v := Array(es);
      } else {
        var ms := MembersSound(d, depth, {});
        v := Object(ms);
      }
  }

  lemma ElementsSound(c: Cursor, depth: nat) returns (es: Elements)
    requires (c.place == ArrayStart || c.place == ArrayComma) && c.stack.Within? && CheckElements(c, depth).0
    requires depth <= MAX_DEPTH
    ensures var e := CheckElements(c, depth).1;
      && c.rest == RenderElements(es, c.place == ArrayStart, Then(CloseArray, e.rest))
      && UniqueInElements(es) && depth + ElementsHeight(es) <= MAX_DEPTH && Ended(c, e)
    decreases Length(c.rest), 1
  {
    if More(c) {
      var v := ValueSound(c, depth + 1);
      var others := ElementsSound(CheckValue(c, depth + 1).1, depth);
      es := Element(v, others);
    } else {
      es := NoElement;
    }
  }

  lemma MembersSound(c: Cursor, depth: nat, seen: set<nat>) returns (ms: Members)
    requires (c.place == ObjectStart || c.place == ObjectComma) && c.stack.Within? && CheckMembers(c, depth, seen).0
    requires depth <= MAX_DEPTH
    ensures var e := CheckMembers(c, depth, seen).1;
      && c.rest == RenderMembers(ms, c.place == ObjectStart, Then(CloseObject, e.rest))
      && UniqueInMembers(ms) && Names(ms) !! seen && depth + MembersHeight(ms) <= MAX_DEPTH && Ended(c, e)
    decreases Length(c.rest), 1
  {
    if More(c) {
      var (t, d) := Next(c);
      NameIsThere(c);
      var v := ValueSound(d, depth + 1);
      var others := MembersSound(CheckValue(d, depth + 1).1, depth, seen + {t.text});
      ms := Member(t.text, v, others);
    } else {
      ms := NoMember;
    }
  }

  // ---- JSON with distinct names is accepted

  lemma ValueComplete(v: Json, depth: nat, p: Place, stack: Stack, tail: Stream)
    requires TakesValue(p) && UniqueKeys(v) && depth + Height(v) <= MAX_DEPTH
    ensures CheckValue(Cursor(Led(p, Render(v, tail)), p, stack), depth) == (true, Cursor(tail, ValueEnd(At(p)), stack))
    decreases v
  {
    LeadIsSkipped(Render(v, tail), p, stack);
    match v
    case Atom =>
    case Str(_) =>
    case Array(es) => ElementsComplete(es, depth, true, Within(At(p), stack), tail);
    case Object(ms) => MembersComplete(ms, depth, true, {}, Within(At(p), stack), tail);
  }

  lemma ElementsComplete(es: Elements, depth: nat, first: bool, stack: Stack, tail: Stream)
    requires stack.Within? && UniqueInElements(es) && depth + ElementsHeight(es) <= MAX_DEPTH
    ensures CheckElements(Cursor(RenderElements(es, first, Then(CloseArray, tail)), if first then ArrayStart else ArrayComma, stack), depth)
         == (true, Cursor(tail, ValueEnd(stack.place), stack.outer))
    decreases es
  {
    match es
    case NoElement =>
    case Element(v, others) =>
      ValueComplete(v, depth + 1, if first then ArrayStart else ArrayComma, stack, RenderElements(others, false, Then(CloseArray, tail)));
      ElementsComplete(others, depth, false, stack, tail);
  }

  lemma MembersComplete(ms: Members, depth: nat, first: bool, seen: set<nat>, stack: Stack, tail: Stream)
    requires stack.Within? && UniqueInMembers(ms) && Names(ms) !! seen && depth + MembersHeight(ms) <= MAX_DEPTH
    ensures CheckMembers(Cursor(RenderMembers(ms, first, Then(CloseObject, tail)), if first then ObjectStart else ObjectComma, stack), depth, seen)
         == (true, Cursor(tail, ValueEnd(stack.place), stack.outer))
    decreases ms
  {
    match ms
    case NoMember =>
    case Member(k, v, others) =>
      var rest := RenderMembers(others, false, Then(CloseObject, tail));
      NameIsNext(k, Then(Colon, Render(v, rest)), first, stack);
      ValueComplete(v, depth + 1, ObjectColon, stack, rest);
      MembersComplete(others, depth, false, seen + {k}, stack, tail);
  }

  /** The checker accepts exactly the texts of one value without repeated names
      and without a node deeper than the maximum. */
  lemma AcceptsExactly(stream: Stream)
    ensures KeysUnique(stream) <==> exists v :: stream == Render(v, End) && UniqueKeys(v) && Height(v) <= MAX_DEPTH
  {
    if KeysUnique(stream) {
      var v := ValueSound(Cursor(stream, Top, Bottom), 0);
    }
    forall v | stream == Render(v, End) && UniqueKeys(v) && Height(v) <= MAX_DEPTH ensures KeysUnique(stream) {
      ValueComplete(v, 0, Top, Bottom, End);
    }
  }

  // ---- the same recursion over a decoder that moves

  class Decoder {
    var cursor: Cursor

    constructor (stream: Stream)
      ensures cursor == Cursor(stream, Top, Bottom)
    {
      cursor := Cursor(stream, Top, Bottom);
    }

    method Token() returns (token: Token)
      modifies this
      ensures (token, cursor) == Next(old(cursor))
    {
      var (t, d) := Next(cursor);
      token, cursor := t, d;
    }

    /** Reads one value; the names seen so far are local to each object. */
    method ValueKeysUnique(depth: nat) returns (unique: bool)
      modifies this
      ensures (unique, cursor) == CheckValue(old(cursor), depth)
      decreases Length(cursor.rest)
    {
      if depth > MAX_DEPTH { return false; }
      var token := Token();
      if !token.Delim? { return token != Failed; }
      ghost var inside := cursor;
      match token.mark
      case OpenObject =>
        var seen: set<nat> := {};
        while More(cursor)
          invariant CheckMembers(cursor, depth, seen) == CheckMembers(inside, depth, {})
          invariant Length(cursor.rest) < old(Length(cursor.rest))
          decreases Length(cursor.rest)
        {
          var name := Token();
          if !name.Chars? || name.text in seen { return false; }
          unique := ValueKeysUnique(depth + 1);
          if !unique { return; }
          seen := seen + {name.text};
        }
        var closing := Token();
        unique := closing == Delim(CloseObject);
      case OpenArray =>
        while More(cursor)
          invariant CheckElements(cursor, depth) == CheckElements(inside, depth)
          invariant Length(cursor.rest) < old(Length(cursor.rest))
          decreases Length(cursor.rest)
        {
          unique := ValueKeysUnique(depth + 1);
          if !unique { return; }
        }
        var closing := Token();
        unique := closing == Delim(CloseArray);
      case _ =>
        unique := false;
    }
  }

  /** Decides a whole stream. */
  method CheckStream(stream: Stream) returns (unique: bool)
    ensures unique <==> exists v :: stream == Render(v, End) && UniqueKeys(v) && Height(v) <= MAX_DEPTH
  {
    var decoder := new Decoder(stream);
    unique := decoder.ValueKeysUnique(0);
    unique := unique && decoder.cursor.rest == End;
    AcceptsExactly(stream);
  }
}
