/** Values shared by every part of the model: optional values, results carrying
    the errors the server throws, and the shape of a stored document. */
module Common {

  datatype Option<+T> = None | Some(value: T)

  /** The error classes the code throws. */
  datatype Error =
    | Forbidden(message: string)        // apollo's ForbiddenError
    | UserInput(message: string)        // apollo's UserInputError
    | Authentication(message: string)   // apollo's AuthenticationError
    | TypeError                         // a JavaScript TypeError (property read of undefined, ...)
    | InvalidArgument                   // an argument the database library rejects
    | Internal(message: string)         // a plain Error

  /** The error both the user store and the medical store raise for a missing patient. */
  function PatientNotFound(id: string): Error
  {
    UserInput("The patient with uid: " + id + " does not exist")
  }

  /** The role claims the server hands out and checks. */
  const PatientRole := "patient"
  const TherapistRole := "therapist"
  const StudentRole := "student"

  /** A value or the error a promise rejects with. */
  datatype Result<+T> = Ok(value: T) | Err(error: Error)

  /** A check that either lets a call go on or stops it with an error. */
  datatype Outcome = Pass | Fail(error: Error)

  /** A value held in a stored document, a resolver argument or a query clause. */
  datatype Value =
    | Undefined                         // a property that is not there
    | Null
    | Str(s: string)
    | Bool(b: bool)
    | Parsed(kind: string, text: string)   // an Int, Float, Date or DateTime parsed from text, left abstract
    | Num(n: int)                       // an integral number
    | Timestamp(millis: int)            // a stored date
    | Arr(items: seq<Value>)
    | Obj(fields: map<string, Value>)

  /** A stored document: its top-level fields. */
  type Document = map<string, Value>

  /** The property `key` of `doc`, `Undefined` when it is not there. */
  function Field(doc: Document, key: string): Value
  {
    if key in doc then doc[key] else Undefined
  }

  /** A decimal digit. */
  predicate IsDigit(c: char)
  {
    '0' <= c <= '9'
  }

  /** A canonical array index: decimal digits without a leading zero. */
  predicate IsIndex(key: string)
  {
    key != [] && (forall i :: 0 <= i < |key| ==> IsDigit(key[i])) && (key[0] == '0' ==> |key| == 1)
  }

  /** The number a string of decimal digits denotes. */
  function IndexValue(key: string): nat
    requires forall i :: 0 <= i < |key| ==> IsDigit(key[i])
  {
    if key == [] then 0
    else
      assert IsDigit(key[|key| - 1]);
      10 * IndexValue(key[..|key| - 1]) + (key[|key| - 1] as int - '0' as int)
  }

  /** The decimal text of a number, as JavaScript writes a property key. */
  function IndexText(n: nat): string
  {
    if n < 10 then [(n + '0' as int) as char] else IndexText(n / 10) + [(n % 10 + '0' as int) as char]
  }

  /** The decimal text of every number is a canonical index that reads back as it. */
  lemma {:induction false} IndexTextRoundTrip(n: nat)
    ensures IsIndex(IndexText(n)) && IndexValue(IndexText(n)) == n
    ensures IndexText(n)[0] == '0' <==> n == 0
  {
    if n >= 10 {
      var front := IndexText(n / 10);
      IndexTextRoundTrip(n / 10);
      var text := IndexText(n);
      assert text[..|text| - 1] == front;
      assert forall i :: 0 <= i < |text| - 1 ==> text[i] == front[i];
      assert text[0] == front[0];
    }
  }

  /** The property read `parent[key]` in JavaScript: a TypeError on a missing
      or null value, the field of an object, the element or the length of an
      array, the one-character string or the length of a string, the seconds
      and nanoseconds of a stored date, and `undefined` for anything else. */
  function PropertyOf(parent: Value, key: string): (r: Result<Value>)
    ensures r.Err? <==> parent.Undefined? || parent.Null?
    ensures r.Err? ==> r.error == TypeError
    ensures parent.Obj? ==> r == Ok(Field(parent.fields, key))
    ensures parent.Arr? && key == "length" ==> r == Ok(Num(|parent.items|))
    ensures parent.Str? && key == "length" ==> r == Ok(Num(|parent.s|))
    ensures parent.Bool? || parent.Parsed? || parent.Num? ==> r == Ok(Undefined)
  {
    match parent
    case Undefined => Err(TypeError)
    case Null => Err(TypeError)
    case Obj(fields) => Ok(Field(fields, key))
    case Arr(items) =>
      if key == "length" then Ok(Num(|items|))
      else if IsIndex(key) && IndexValue(key) < |items| then Ok(items[IndexValue(key)])
      else Ok(Undefined)
    case Str(s) =>
      if key == "length" then Ok(Num(|s|))
      else if IsIndex(key) && IndexValue(key) < |s| then Ok(Str([s[IndexValue(key)]]))
      else Ok(Undefined)
    case Timestamp(millis) =>
      if key == "seconds" then Ok(Num(millis / 1000))
      else if key == "nanoseconds" then Ok(Num(millis % 1000 * 1000000))
      else Ok(Undefined)
    case _ => Ok(Undefined)
  }

  /** Every position of an array or a string is read by its decimal index, and
      a stored date splits into whole seconds and the nanoseconds left over. */
  lemma {:induction false} PropertyOfPositions(parent: Value, i: nat)
    ensures parent.Arr? && i < |parent.items| ==> PropertyOf(parent, IndexText(i)) == Ok(parent.items[i])
    ensures parent.Str? && i < |parent.s| ==> PropertyOf(parent, IndexText(i)) == Ok(Str([parent.s[i]]))
    ensures parent.Timestamp? ==>
              PropertyOf(parent, "seconds").value.n * 1000000000 + PropertyOf(parent, "nanoseconds").value.n ==
                parent.millis * 1000000 &&
              0 <= PropertyOf(parent, "nanoseconds").value.n < 1000000000
  {
    IndexTextRoundTrip(i);
    assert IndexText(i) != "length";
  }

  /** JavaScript truthiness of a value. */
  predicate TruthyValue(v: Value)
  {
    match v
    case Undefined => false
    case Null => false
    case Str(s) => s != ""
    case Bool(b) => b
    case Num(n) => n != 0
    case _ => true
  }

  /** JavaScript truthiness of an optional string: present and not empty. */
  predicate Truthy(s: Option<string>)
  {
    s.Some? && s.value != ""
  }
}
