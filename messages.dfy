/**
 * The WhatsApp messages both forms compose, seen as a list of lines: fixed
 * text lines and labelled lines written `*Label:* value`. The message is the
 * lines joined by line breaks, and the hand-off is the fixed wa.me link with
 * the percent-encoded message appended. The encoder (encodeURIComponent) is
 * a parameter: the model does not define percent-encoding.
 */
module Messages {

  /** The wa.me deep link both forms open, up to the encoded message text. */
  const WhatsAppPrefix: string := "https://wa.me/5517988146826?text="

  datatype Line = Text(text: string) | Field(key: string, value: string)

  /** A line as the templates write it. */
  function RenderLine(l: Line): string {
    match l
    case Text(t) => t
    case Field(key, value) => "*" + key + ":* " + value
  }

  function RenderLines(ls: seq<Line>): (r: seq<string>)
    ensures |r| == |ls|
    ensures forall i :: 0 <= i < |ls| ==> r[i] == RenderLine(ls[i])
  {
    seq(|ls|, i requires 0 <= i < |ls| => RenderLine(ls[i]))
  }

  /** Lines joined with "\n", as a multi-line template literal lays them out. */
  function JoinLines(ls: seq<string>): string {
    if |ls| == 0 then ""
    else if |ls| == 1 then ls[0]
    else JoinLines(ls[..|ls| - 1]) + "\n" + ls[|ls| - 1]
  }

  /** Adding a line adds a line break and the line at the end. */
  lemma JoinSnoc(ls: seq<string>, s: string)
    requires |ls| >= 1
    ensures JoinLines(ls + [s]) == JoinLines(ls) + "\n" + s
  {
    assert (ls + [s])[..|ls|] == ls;
  }

  /** A joined message begins with its first line. */
  lemma {:induction false} JoinStartsWithFirst(ls: seq<string>)
    requires |ls| >= 1
    ensures |ls[0]| <= |JoinLines(ls)| && JoinLines(ls)[..|ls[0]|] == ls[0]
  {
    if |ls| > 1 {
      JoinStartsWithFirst(ls[..|ls| - 1]);
      assert ls[..|ls| - 1][0] == ls[0];
    }
  }

  /** A joined message ends with its last line. */
  lemma JoinEndsWithLast(ls: seq<string>)
    requires |ls| >= 1
    ensures var last := ls[|ls| - 1]; var m := JoinLines(ls);
      |last| <= |m| && m[|m| - |last|..] == last
  {
  }

  /** The labelled lines of a message, as (key, value) pairs in order. */
  function Fields(ls: seq<Line>): seq<(string, string)> {
    if |ls| == 0 then []
    else (match ls[0] case Field(l, v) => [(l, v)] case Text(_) => []) + Fields(ls[1..])
  }

  /** Fields of consecutive parts of a message are those of each part, in order. */
  lemma {:induction false} FieldsAppend(a: seq<Line>, b: seq<Line>)
    ensures Fields(a + b) == Fields(a) + Fields(b)
  {
    if |a| > 0 {
      FieldsAppend(a[1..], b);
      assert (a + b)[1..] == a[1..] + b;
    } else {
      assert a + b == b;
    }
  }

  /** A line carrying `value` under `key` when the value is non-empty, and an empty line otherwise. */
  function OptionalField(key: string, value: string): (l: Line)
    ensures l.Field? <==> value != ""
    ensures value == "" ==> RenderLine(l) == ""
  {
    if value != "" then Field(key, value) else Text("")
  }

  /** The fields of an optional line: the one pair when the value is non-empty, none otherwise. */
  function OptionalPair(key: string, value: string): seq<(string, string)> {
    if value != "" then [(key, value)] else []
  }

  /** An optional line contributes its pair exactly when the value is non-empty. */
  lemma FieldsOfOptional(key: string, value: string)
    ensures Fields([OptionalField(key, value)]) == OptionalPair(key, value)
  {
  }

  /** Unlabelled lines carry no fields. */
  lemma {:induction false} FieldsOfText(ls: seq<Line>)
    requires forall i :: 0 <= i < |ls| ==> ls[i].Text?
    ensures Fields(ls) == []
  {
    if |ls| > 0 {
      FieldsOfText(ls[1..]);
    }
  }

  /** A run of labelled lines yields its pairs in order. */
  lemma {:induction false} FieldsOfBody(body: seq<Line>)
    requires forall i :: 0 <= i < |body| ==> body[i].Field?
    ensures Fields(body) == seq(|body|, i requires 0 <= i < |body| => (body[i].key, body[i].value))
  {
    if |body| > 0 {
      FieldsOfBody(body[1..]);
    }
  }

  /** `https://wa.me/...?text=${encode(message)}`. */
  function HandoffUrl(message: string, encode: string -> string): (url: string)
    ensures |WhatsAppPrefix| <= |url| && url[..|WhatsAppPrefix|] == WhatsAppPrefix
    ensures url[|WhatsAppPrefix|..] == encode(message)
  {
    WhatsAppPrefix + encode(message)
  }

  /**
   * With an injective encoder (percent-encoding of section 2.1 of RFC 3986 is),
   * the link determines the message: two different messages never share a link.
   */
  lemma HandoffUrlInjective(m1: string, m2: string, encode: string -> string)
    requires forall a, b :: encode(a) == encode(b) ==> a == b
    requires HandoffUrl(m1, encode) == HandoffUrl(m2, encode)
    ensures m1 == m2
  {
    assert encode(m1) == HandoffUrl(m1, encode)[|WhatsAppPrefix|..];
  }

  /** Decoding the link's text parameter with the encoder's inverse gives back the message. */
  lemma HandoffUrlRoundTrip(message: string, encode: string -> string, decode: string -> string)
    requires forall s :: decode(encode(s)) == s
    ensures decode(HandoffUrl(message, encode)[|WhatsAppPrefix|..]) == message
  {
  }
}
