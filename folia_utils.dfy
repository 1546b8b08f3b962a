/** The exception taxonomy of libfolia and the keyword-argument map.

    Every exception class only concatenates a fixed prefix with its argument
    (folia_utils.h:51-105); the model gives them one datatype, `Error`, whose
    `What()` is the text `std::runtime_error::what()` would report, and an inverse,
    `Parse`, that recovers the exception from its text. */
module FoliaUtils {

  /** The `KWargs` typedef: attribute name to attribute value. */
  type KWargs = map<string, string>

  /** The value stored under `key`, or "" when there is none. */
  function Arg(args: KWargs, key: string): (v: string)
    ensures key in args ==> v == args[key]
    ensures key !in args ==> v == ""
  {
    if key in args then args[key] else ""
  }

  datatype Option<+T> = None | Some(value: T)

  /** A value, or the exception that would have been thrown instead. */
  datatype Result<+T> = Ok(value: T) | Err(error: Error)

  /** Success without a value, or the exception that would have been thrown. */
  datatype Outcome = Pass | Fail(error: Error)

  const ArgsPrefix: string := "error in argument list: "
  const KeyOutOfRange: string := "key out of range"
  const NotImplementedPrefix: string := "NOT IMPLEMENTED: "
  const XmlPrefix: string := "XML error: "
  const NoSuchAnnotationPrefix: string := "no such annotation: "
  const NoSuchTextPrefix: string := "no such text: "
  const NoSuchPhonPrefix: string := "no such phoneme: "
  const DuplicateIdPrefix: string := "duplicate ID : "
  const NoDefaultPrefix: string := "No Default found: "

  /** One constructor per exception class; `arg` is the string the class is built from. */
  datatype Error =
    | ArgsError(arg: string)
    | KeyError
    | NotImplementedError(arg: string)
    | ValueError(arg: string)
    | XmlError(arg: string)
    | NoSuchAnnotation(arg: string)
    | NoSuchText(arg: string)
    | NoSuchPhon(arg: string)
    | DuplicateAnnotationError(arg: string)
    | DuplicateIDError(arg: string)
    | NoDefaultError(arg: string)
  {
    /** ValueError and DuplicateAnnotationError report their argument unchanged. */
    predicate PassesThrough() {
      ValueError? || DuplicateAnnotationError?
    }

    /** The fixed text put in front of the argument ("" for the pass-through kinds). */
    function Prefix(): string
      requires !KeyError?
    {
      match this
      case ArgsError(_) => ArgsPrefix
      case NotImplementedError(_) => NotImplementedPrefix
      case ValueError(_) => ""
      case XmlError(_) => XmlPrefix
      case NoSuchAnnotation(_) => NoSuchAnnotationPrefix
      case NoSuchText(_) => NoSuchTextPrefix
      case NoSuchPhon(_) => NoSuchPhonPrefix
      case DuplicateAnnotationError(_) => ""
      case DuplicateIDError(_) => DuplicateIdPrefix
      case NoDefaultError(_) => NoDefaultPrefix
    }

    /** The message the exception carries. */
    function What(): (msg: string)
      ensures KeyError? ==> msg == KeyOutOfRange
      ensures PassesThrough() ==> msg == arg
      ensures !KeyError? ==> |msg| == |Prefix()| + |arg| && msg[..|Prefix()|] == Prefix()
                             && msg[|Prefix()|..] == arg
    {
      match this
      case ArgsError(s) => ArgsPrefix + s
      case KeyError => KeyOutOfRange
      case NotImplementedError(s) => NotImplementedPrefix + s
      case ValueError(s) => s
      case XmlError(s) => XmlPrefix + s
      case NoSuchAnnotation(s) => NoSuchAnnotationPrefix + s
      case NoSuchText(s) => NoSuchTextPrefix + s
      case NoSuchPhon(s) => NoSuchPhonPrefix + s
      case DuplicateAnnotationError(s) => s
      case DuplicateIDError(s) => DuplicateIdPrefix + s
      case NoDefaultError(s) => NoDefaultPrefix + s
    }
  }

  /** The error the NOT_IMPLEMENTED macro throws from member `func` of an element whose tag is `xmltag`. */
  function NotImplementedFor(xmltag: string, func: string): (e: Error)
    ensures e.NotImplementedError?
    ensures e.What() == NotImplementedPrefix + xmltag + "::" + func
  {
    NotImplementedError(xmltag + "::" + func)
  }

  predicate StartsWith(prefix: string, msg: string) {
    |prefix| <= |msg| && msg[..|prefix|] == prefix
  }

  /** Recovers the exception from its message; the pass-through kinds are never recovered. */
  function Parse(msg: string): (r: Option<Error>)
    ensures r.Some? ==> !r.value.PassesThrough() && r.value.What() == msg
  {
    if msg == KeyOutOfRange then Some(KeyError)
    else if StartsWith(ArgsPrefix, msg) then Some(ArgsError(msg[|ArgsPrefix|..]))
    else if StartsWith(NotImplementedPrefix, msg) then Some(NotImplementedError(msg[|NotImplementedPrefix|..]))
    else if StartsWith(XmlPrefix, msg) then Some(XmlError(msg[|XmlPrefix|..]))
    else if StartsWith(NoSuchAnnotationPrefix, msg) then Some(NoSuchAnnotation(msg[|NoSuchAnnotationPrefix|..]))
    else if StartsWith(NoSuchTextPrefix, msg) then Some(NoSuchText(msg[|NoSuchTextPrefix|..]))
    else if StartsWith(NoSuchPhonPrefix, msg) then Some(NoSuchPhon(msg[|NoSuchPhonPrefix|..]))
    else if StartsWith(DuplicateIdPrefix, msg) then Some(DuplicateIDError(msg[|DuplicateIdPrefix|..]))
    else if StartsWith(NoDefaultPrefix, msg) then Some(NoDefaultError(msg[|NoDefaultPrefix|..]))
    else None
  }

  /** A message that differs from `prefix` at position `i` does not start with it. */
  lemma NotStartingWith(prefix: string, msg: string, i: nat)
    requires i < |prefix| && i < |msg| && msg[i] != prefix[i]
    ensures !StartsWith(prefix, msg)
  {
    if |prefix| <= |msg| {
      assert msg[..|prefix|][i] == msg[i];
    }
  }

  /** Every exception with a prefixed message is recovered from its message. */
  lemma {:induction false} ParseWhat(e: Error)
    requires !e.PassesThrough()
    ensures Parse(e.What()) == Some(e)
  {
    var msg := e.What();
    if !e.KeyError? {
      var p := e.Prefix();
      assert msg[..|p|] == p && msg[|p|..] == e.arg;
      assert forall i | 0 <= i < |p| :: msg[i] == p[i] by {
        forall i | 0 <= i < |p| ensures msg[i] == p[i] {
          assert msg[..|p|][i] == msg[i];
        }
      }
      assert msg != KeyOutOfRange by {
        assert msg[0] == p[0] != 'k' == KeyOutOfRange[0];
      }
      match e
      case ArgsError(_) =>
      case NotImplementedError(_) =>
        NotStartingWith(ArgsPrefix, msg, 0);
      case XmlError(_) =>
        NotStartingWith(ArgsPrefix, msg, 0);
        NotStartingWith(NotImplementedPrefix, msg, 0);
      case NoSuchAnnotation(_) =>
        NotStartingWith(ArgsPrefix, msg, 0);
        NotStartingWith(NotImplementedPrefix, msg, 0);
        NotStartingWith(XmlPrefix, msg, 0);
      case NoSuchText(_) =>
        NotStartingWith(ArgsPrefix, msg, 0);
        NotStartingWith(NotImplementedPrefix, msg, 0);
        NotStartingWith(XmlPrefix, msg, 0);
        NotStartingWith(NoSuchAnnotationPrefix, msg, 8);
      case NoSuchPhon(_) =>
        NotStartingWith(ArgsPrefix, msg, 0);
        NotStartingWith(NotImplementedPrefix, msg, 0);
        NotStartingWith(XmlPrefix, msg, 0);
        NotStartingWith(NoSuchAnnotationPrefix, msg, 8);
        NotStartingWith(NoSuchTextPrefix, msg, 8);
      case DuplicateIDError(_) =>
        NotStartingWith(ArgsPrefix, msg, 0);
        NotStartingWith(NotImplementedPrefix, msg, 0);
        NotStartingWith(XmlPrefix, msg, 0);
        NotStartingWith(NoSuchAnnotationPrefix, msg, 0);
        NotStartingWith(NoSuchTextPrefix, msg, 0);
        NotStartingWith(NoSuchPhonPrefix, msg, 0);
      case NoDefaultError(_) =>
        NotStartingWith(ArgsPrefix, msg, 0);
        NotStartingWith(NotImplementedPrefix, msg, 1);
        NotStartingWith(XmlPrefix, msg, 0);
        NotStartingWith(NoSuchAnnotationPrefix, msg, 0);
        NotStartingWith(NoSuchTextPrefix, msg, 0);
        NotStartingWith(NoSuchPhonPrefix, msg, 0);
        NotStartingWith(DuplicateIdPrefix, msg, 0);
    }
  }

  /** Apart from the two pass-through kinds, the message identifies the exception. */
  lemma {:induction false} WhatIdentifies(e1: Error, e2: Error)
    requires !e1.PassesThrough() && !e2.PassesThrough()
    ensures e1.What() == e2.What() <==> e1 == e2
  {
    ParseWhat(e1);
    ParseWhat(e2);
  }

  /** A pass-through exception can carry exactly the text of a prefixed one. */
  lemma PassThroughIsAmbiguous(s: string)
    ensures ValueError(NoSuchTextPrefix + s).What() == NoSuchText(s).What()
    ensures DuplicateAnnotationError(DuplicateIdPrefix + s).What() == DuplicateIDError(s).What()
  {
  }
}
