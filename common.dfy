/** Values shared by both copies of the study-group entity and by the controller:
    nullable values, exceptions, the 32-bit integers of C#, users, subjects, dates. */
module Common {

  /** A C# reference that may be null: `None` is null. */
  datatype Option<+T> = None | Some(value: T)

  /** The result of a call that either returns a value or throws. */
  datatype Result<+R, +E> = Success(value: R) | Failure(error: E)

  /** C# `int`. Identifiers are only compared, never computed with. */
  newtype Int32 = x: int | -0x8000_0000 <= x < 0x8000_0000

  /** The exceptions the modelled code throws or lets through. */
  datatype Exception =
    | WrongStudyGroupException
    | NullReferenceException
    | ArgumentNullException(paramName: string)
      /** Whatever a repository implementation throws, with its type name and message. */
    | OtherException(typeName: string, message: string)

  /** A member of a study group: an identifier and a display name. */
  datatype User = User(Id: Int32, Name: string)

  /** The subjects a study group can be about. */
  datatype Subject = Math | Chemistry | Physics

  /** The value of a C# enum constant, in declaration order. */
  function SubjectValue(s: Subject): (v: nat)
    ensures v < 3
  {
    match s
    case Math => 0
    case Chemistry => 1
    case Physics => 2
  }

  /** The three subjects are distinct enum constants. */
  lemma SubjectValues(s: Subject, t: Subject)
    ensures SubjectValue(s) == SubjectValue(t) ==> s == t
  {
  }

  /** What C#'s `string.Length` counts: UTF-16 code units, so a character above U+FFFF
      counts twice. */
  function Utf16Length(s: string): (n: nat)
    ensures |s| <= n <= 2 * |s|
  {
    if s == [] then 0
    else (if s[0] as int > 0xFFFF then 2 else 1) + Utf16Length(s[1..])
  }

  /** No character of `s` lies above U+FFFF: each is one UTF-16 code unit. */
  predicate InBmp(s: string)
  {
    forall i :: 0 <= i < |s| ==> s[i] as int <= 0xFFFF
  }

  /** For a string within the Basic Multilingual Plane, the UTF-16 length is the number of characters. */
  lemma {:induction false} Utf16LengthOfBmp(s: string)
    requires InBmp(s)
    ensures Utf16Length(s) == |s|
  {
    if s != [] {
      Utf16LengthOfBmp(s[1..]);
    }
  }

  /** The UTF-16 length of a concatenation is the sum of the parts' lengths. */
  lemma {:induction false} Utf16LengthConcat(s: string, t: string)
    ensures Utf16Length(s + t) == Utf16Length(s) + Utf16Length(t)
  {
    if s != [] {
      assert (s + t)[0] == s[0] && (s + t)[1..] == s[1..] + t;
      Utf16LengthConcat(s[1..], t);
    } else {
      assert s + t == t;
    }
  }

  /** A creation timestamp. Nothing inspects or computes with it. */
  type DateTime(==)
}
