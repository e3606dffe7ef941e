/** IMuException: an error identifier, an optional argument list and the
    message fixed when the exception is built. Also the failures the rest
    of the model reports (an IMuException or an unchecked Java exception)
    and the Result/Outcome wrappers that carry them. */
module IMuErrors {
  import opened Values

  /** `id` is fixed; `built` are the arguments the constructor built the
      message from, so `Message()` is what `getMessage()` returns; `args` is
      the array `toString()` and `getArgs()` see (None for a null array). */
  datatype Exc = Exc(id: string, built: seq<Value>, args: Option<seq<Value>>)
  {
    function Message(): string
    {
      Describe(id, Some(built))
    }
  }

  /** What an operation can throw: an IMuException, an unchecked Java
      exception (NullPointerException, ClassCastException, ...) by class and
      message, or `Unmodelled` where the model stops short of Java. */
  datatype Failure =
    | IMu(exc: Exc)
    | Runtime(kind: string, message: string)
    | Unmodelled(what: string)

  datatype Result<+T> = Ok(value: T) | Err(error: Failure) {
    predicate IsFailure() { Err? }
    function PropagateFailure<U>(): Result<U> requires Err? { Err(error) }
    function Extract(): T requires Ok? { value }
  }

  datatype Outcome = Pass | Fail(error: Failure) {
    predicate IsFailure() { Fail? }
    function PropagateFailure<U>(): Result<U> requires Fail? { Err(error) }
  }

  /** A method that can throw did what the function `r` says: on success it
      reached the state `now`, otherwise it threw `r`'s failure. */
  predicate Follows<T(==)>(o: Outcome, r: Result<T>, now: T)
  {
    if r.Ok? then o.Pass? && now == r.value else o == Fail(r.error)
  }

  function NullPointer(): Failure { Runtime("java.lang.NullPointerException", "") }
  function ClassCast(): Failure { Runtime("java.lang.ClassCastException", "") }
  function ArrayStore(): Failure { Runtime("java.lang.ArrayStoreException", "") }
  function NumberFormat(s: string): Failure
  {
    Runtime("java.lang.NumberFormatException", NumberFormatMessage(s))
  }

  /** `Integer.valueOf(s)` and `Integer.parseInt(s)`, failing as Java does. */
  function IntOf(s: string): (r: Result<int32>)
    ensures r.Err? ==> r.error == NumberFormat(s)
  {
    match ParseInt(s)
    case Some(n) => Ok(n)
    case None => Err(NumberFormat(s))
  }

  /** `Long.valueOf(s)` and `Long.parseLong(s)`, failing as Java does. */
  function LongOf(s: string): (r: Result<int64>)
    ensures r.Err? ==> r.error == NumberFormat(s)
  {
    match ParseLong(s)
    case Some(n) => Ok(n)
    case None => Err(NumberFormat(s))
  }

  /** The arguments, each by `String.valueOf`, separated by ", ". */
  function JoinArgs(args: seq<Value>): string
  {
    if |args| == 0 then ""
    else if |args| == 1 then Show(args[0])
    else JoinArgs(args[..|args| - 1]) + ", " + Show(args[|args| - 1])
  }

  /** The text both `buildMessage` and `toString` produce. */
  function Describe(id: string, args: Option<seq<Value>>): string
  {
    if args.None? || |args.value| == 0 then id
    else id + " (" + JoinArgs(args.value) + ")"
  }

  /** The loop `buildMessage` (and, over the stored arguments, `toString`)
      runs with its StringBuilder. */
  method BuildMessage(id: string, args: Option<seq<Value>>) returns (s: string)
    ensures s == Describe(id, args)
  {
    s := id;
    if args.Some? && |args.value| > 0 {
      var a := args.value;
      s := s + " (";
      var i := 0;
      while i < |a|
        invariant 0 <= i <= |a|
        invariant s == id + " (" + JoinArgs(a[..i])
      {
        if i > 0 {
          s := s + ", ";
        }
        assert a[..i + 1][..i] == a[..i];
        s := s + Show(a[i]);
        i := i + 1;
      }
      assert a[..i] == a;
      s := s + ")";
    }
  }

  /** `new IMuException(id, args...)`: the variable arguments become the
      argument array, never null. */
  function NewExc(id: string, args: seq<Value>): Exc
  {
    Exc(id, args, Some(args))
  }

  /** `new IMuException(id, cause)`. `cause` is None for a null cause, else
      the cause's message (None for a null message). The message is built
      from a one-element argument list even when the cause is null (the
      conditional's null is wrapped as a String vararg), while the stored
      arguments are null then. */
  function NewCausedExc(id: string, cause: Option<Option<string>>): Exc
  {
    var text := if cause.Some? && cause.value.Some? then Str(cause.value.value) else Null;
    Exc(id, [text], if cause.Some? then Some([text]) else None)
  }

  function ToString(e: Exc): string
  {
    Describe(e.id, e.args)
  }

  function SetArgs(e: Exc, args: Option<seq<Value>>): Exc
  {
    e.(args := args)
  }

  function GetID(e: Exc): string
  {
    e.id
  }

  function GetArgs(e: Exc): Option<seq<Value>>
  {
    e.args
  }

  // ---------------------------------------------------------------------
  // Properties

  /** Without arguments the text is exactly the identifier; with arguments
      it is the identifier followed by " (" and more. */
  lemma DescribeBareIffNoArgs(id: string, args: Option<seq<Value>>)
    ensures Describe(id, args) == id <==> (args.None? || args.value == [])
    ensures args.Some? && args.value != [] ==> Describe(id, args)[..|id| + 2] == id + " ("
  {
    if args.Some? && args.value != [] {
      assert |Describe(id, args)| > |id|;
    }
  }

  /** The arguments are joined with exactly |args| - 1 ", " separators. */
  lemma {:induction false} JoinArgsLength(args: seq<Value>)
    requires |args| > 0
    ensures |JoinArgs(args)| == SumShown(args) + 2 * (|args| - 1)
  {
    if |args| > 1 {
      JoinArgsLength(args[..|args| - 1]);
      assert args[..|args| - 1][..|args| - 2] == args[..|args| - 2];
      SumShownLast(args);
    }
  }

  function SumShown(args: seq<Value>): nat
  {
    if args == [] then 0 else |Show(args[0])| + SumShown(args[1..])
  }

  lemma {:induction false} SumShownLast(args: seq<Value>)
    requires |args| > 0
    ensures SumShown(args) == SumShown(args[..|args| - 1]) + |Show(args[|args| - 1])|
  {
    if |args| > 1 {
      SumShownLast(args[1..]);
      assert args[1..][..|args| - 2] == args[..|args| - 1][1..];
    }
  }

  /** An exception built with variable arguments reports the same text from
      `getMessage()` and `toString()`, and `getID` gives the identifier back. */
  lemma ConstructedAgrees(id: string, args: seq<Value>)
    ensures NewExc(id, args).Message() == ToString(NewExc(id, args))
    ensures GetID(NewExc(id, args)) == id && GetArgs(NewExc(id, args)) == Some(args)
    ensures args == [] ==> ToString(NewExc(id, args)) == id
  {
  }

  /** `setArgs` changes what `toString` reports but not the stored message. */
  lemma SetArgsKeepsMessage(e: Exc, args: Option<seq<Value>>)
    ensures SetArgs(e, args).Message() == e.Message()
    ensures ToString(SetArgs(e, args)) == Describe(e.id, args)
    ensures GetID(SetArgs(e, args)) == e.id
  {
  }

  /** The cause constructor keeps the cause's message as the only argument
      when there is a cause, and null arguments when there is none; in that
      case the message says "(null)" while `toString` is the bare id. */
  lemma CausedExcArgs(id: string, cause: Option<Option<string>>)
    ensures cause.None? ==> NewCausedExc(id, cause).args.None?
    ensures cause.None? ==> NewCausedExc(id, cause).Message() == id + " (null)"
    ensures cause.None? ==> ToString(NewCausedExc(id, cause)) == id
    ensures cause.Some? && cause.value.Some? ==>
      NewCausedExc(id, cause).args == Some([Str(cause.value.value)])
      && NewCausedExc(id, cause).Message() == ToString(NewCausedExc(id, cause))
      && ToString(NewCausedExc(id, cause)) == id + " (" + cause.value.value + ")"
  {
  }
}
