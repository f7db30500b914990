/**
 * Turning a message and a list of sub-errors into one exception: the errors
 * are joined with "; " after a " :: " marker, or a fixed placeholder stands
 * in for an empty list; the composed text goes to the exception factory.
 */
module ExceptionHandling {
  import opened Results

  const Marker: string := " :: "
  const Separator: string := "; "
  const Placeholder: string := "No specific error message"

  /** The class the handler builder uses when none is given. */
  const DefaultExceptionClass: string := "java.lang.Exception"

  /** An exception instance: its class and its message. */
  datatype Exception = Exception(className: string, message: string)

  /** `joinToString(separator)`: the parts in order, with the separator between neighbours. */
  function Join(parts: seq<string>, separator: string): string
  {
    if |parts| == 0 then ""
    else if |parts| == 1 then parts[0]
    else parts[0] + separator + Join(parts[1..], separator)
  }

  /** Where part `i` starts in `Join(parts, separator)`: the earlier parts, each followed by one separator. */
  function Offset(parts: seq<string>, separator: string, i: nat): nat
    requires i <= |parts|
  {
    if i == 0 then 0 else Offset(parts, separator, i - 1) + |parts[i - 1]| + |separator|
  }

  lemma {:induction false} OffsetOfTail(parts: seq<string>, separator: string, i: nat)
    requires 0 < i <= |parts|
    ensures Offset(parts, separator, i) == |parts[0]| + |separator| + Offset(parts[1..], separator, i - 1)
  {
    if i > 1 {
      OffsetOfTail(parts, separator, i - 1);
    }
  }

  /** A slice inside the left operand of a concatenation. */
  lemma SliceLeft(a: string, b: string, lo: nat, hi: nat)
    requires lo <= hi <= |a|
    ensures (a + b)[lo..hi] == a[lo..hi]
  {
  }

  /** A slice inside the right operand of a concatenation. */
  lemma SliceRight(a: string, b: string, lo: nat, hi: nat)
    requires |a| <= lo <= hi <= |a| + |b|
    ensures (a + b)[lo..hi] == b[lo - |a|..hi - |a|]
  {
  }

  /** A join of more than one part is the first part, the separator, and the join of the rest. */
  lemma JoinUnfolds(parts: seq<string>, separator: string)
    requires |parts| > 1
    ensures Join(parts, separator) == parts[0] + separator + Join(parts[1..], separator)
    ensures Join(parts, separator) == parts[0] + (separator + Join(parts[1..], separator))
  {
  }

  /** Part `i` sits in the joined text at `Offset(parts, separator, i)`; the last part ends the text. */
  lemma {:induction false} JoinPlacesPart(parts: seq<string>, separator: string, i: nat)
    requires i < |parts|
    ensures Offset(parts, separator, i) + |parts[i]| <= |Join(parts, separator)|
    ensures Join(parts, separator)[Offset(parts, separator, i)..Offset(parts, separator, i) + |parts[i]|] == parts[i]
    ensures i + 1 == |parts| ==> Offset(parts, separator, i) + |parts[i]| == |Join(parts, separator)|
  {
    if |parts| > 1 {
      var rest := Join(parts[1..], separator);
      JoinUnfolds(parts, separator);
      if i == 0 {
        SliceLeft(parts[0], separator + rest, 0, |parts[0]|);
      } else {
        var lead := parts[0] + separator;
        JoinPlacesPart(parts[1..], separator, i - 1);
        OffsetOfTail(parts, separator, i);
        var start := Offset(parts[1..], separator, i - 1);
        SliceRight(lead, rest, |lead| + start, |lead| + start + |parts[i]|);
      }
    }
  }

  /** Between part `i` and part `i + 1` of the joined text stands exactly one separator. */
  lemma {:induction false} JoinSeparates(parts: seq<string>, separator: string, i: nat)
    requires i + 1 < |parts|
    ensures Offset(parts, separator, i + 1) <= |Join(parts, separator)|
    ensures Join(parts, separator)[Offset(parts, separator, i) + |parts[i]|..Offset(parts, separator, i + 1)] == separator
  {
    var rest := Join(parts[1..], separator);
    var lead := parts[0] + separator;
    JoinUnfolds(parts, separator);
    if i == 0 {
      SliceRight(parts[0], separator + rest, |parts[0]|, |lead|);
      SliceLeft(separator, rest, 0, |separator|);
    } else {
      JoinSeparates(parts[1..], separator, i - 1);
      OffsetOfTail(parts, separator, i);
      OffsetOfTail(parts, separator, i + 1);
      var start := Offset(parts[1..], separator, i - 1);
      var next := Offset(parts[1..], separator, i);
      SliceRight(lead, rest, |lead| + start + |parts[i]|, |lead| + next);
    }
  }

  /**
   * The text handed to the factory: the message, the marker, then the joined
   * errors, or the placeholder when there are none.
   */
  function ComposeMessage(message: string, errors: seq<string>): (r: string)
    ensures |message + Marker| <= |r| && r[..|message + Marker|] == message + Marker
    ensures |errors| == 0 ==> r == message + " :: No specific error message"
    ensures |errors| > 0 ==> r == message + " :: " + Join(errors, "; ")
  {
    var errorMessage := if |errors| > 0 then Join(errors, Separator) else Placeholder;
    message + Marker + errorMessage
  }

  /** A single error follows the marker as it is. */
  lemma SingleErrorFollowsMarker(message: string, e: string)
    ensures ComposeMessage(message, [e]) == message + " :: " + e
  {
  }

  /**
   * Every error appears in the composed text, in list order, at its place
   * after the marker, with "; " between consecutive errors; the last error
   * ends the text.
   */
  lemma {:induction false} ErrorsAppearInOrder(message: string, errors: seq<string>, i: nat)
    requires i < |errors|
    ensures var r := ComposeMessage(message, errors);
      var at := |message| + |Marker| + Offset(errors, Separator, i);
      && at + |errors[i]| <= |r|
      && r[at..at + |errors[i]|] == errors[i]
      && (i + 1 < |errors| ==> at + |errors[i]| + |Separator| <= |r|)
      && (i + 1 < |errors| ==> r[at + |errors[i]|..at + |errors[i]| + |Separator|] == Separator)
      && (i + 1 == |errors| ==> at + |errors[i]| == |r|)
  {
    var head := message + Marker;
    var joined := Join(errors, Separator);
    assert ComposeMessage(message, errors) == head + joined;
    JoinPlacesPart(errors, Separator, i);
    var start := Offset(errors, Separator, i);
    SliceRight(head, joined, |head| + start, |head| + start + |errors[i]|);
    if i + 1 < |errors| {
      JoinSeparates(errors, Separator, i);
      var stop := start + |errors[i]|;
      SliceRight(head, joined, |head| + stop, |head| + stop + |Separator|);
    }
  }

  /**
   * The placeholder is ordinary text: a lone error that reads exactly like it
   * composes to the same message as an empty list.
   */
  lemma PlaceholderIndistinguishable(message: string)
    ensures ComposeMessage(message, []) == ComposeMessage(message, [Placeholder])
  {
  }

  /** The strategy that creates the exception: by class, as the builder's default does, or supplied by the caller. */
  datatype ExceptionFactory =
    | ClassExceptionFactory(exceptionClass: string)
    | CustomExceptionFactory(create: string -> Exception)
  {
    function CreateException(message: string): (e: Exception)
      ensures ClassExceptionFactory? ==> e.className == exceptionClass && e.message == message
    {
      match this
      case ClassExceptionFactory(cls) => Exception(cls, message)
      case CustomExceptionFactory(create) => create(message)
    }
  }

  datatype ExceptionHandler = ExceptionHandler(exceptionFactory: ExceptionFactory)
  {
    /** `handleException`: the factory is applied once, to the composed text, and its exception is returned. */
    function HandleException(message: string, errors: seq<string>): (e: Exception)
      ensures e == exceptionFactory.CreateException(ComposeMessage(message, errors))
      ensures exceptionFactory.ClassExceptionFactory? ==>
        e.className == exceptionFactory.exceptionClass && e.message == ComposeMessage(message, errors)
    {
      exceptionFactory.CreateException(ComposeMessage(message, errors))
    }
  }

  /** `ExceptionHandler.Builder`: the exception class to fall back on and the factory set so far, if any. */
  datatype HandlerBuilder = HandlerBuilder(exceptionClass: string, excFactory: Option<ExceptionFactory>)
  {
    /** `setExceptionFactory`: records the factory, replacing any earlier one. */
    function SetExceptionFactory(factory: ExceptionFactory): (b: HandlerBuilder)
      ensures b.exceptionClass == exceptionClass && b.excFactory == Some(factory)
    {
      this.(excFactory := Some(factory))
    }

    /** `build`: the factory that was set, otherwise one creating exceptions of the builder's class. */
    function Build(): (h: ExceptionHandler)
      ensures excFactory.Some? ==> h.exceptionFactory == excFactory.value
      ensures excFactory.None? ==> h.exceptionFactory == ClassExceptionFactory(exceptionClass)
    {
      ExceptionHandler(if excFactory.Some? then excFactory.value else ClassExceptionFactory(exceptionClass))
    }
  }

  /** `Builder()` with no argument: the class defaults to `Exception` and no factory is set. */
  function NewBuilder(): (b: HandlerBuilder)
    ensures b.exceptionClass == DefaultExceptionClass && b.excFactory.None?
  {
    HandlerBuilder(DefaultExceptionClass, None)
  }

  /** A handler built without a factory creates `Exception`s carrying the composed message. */
  lemma DefaultHandlerCreatesException(message: string, errors: seq<string>)
    ensures NewBuilder().Build().HandleException(message, errors) == Exception(DefaultExceptionClass, ComposeMessage(message, errors))
  {
  }
}
