/**
 * The contact form's WhatsApp message: a header, a greeting, the Nome,
 * Telefone, Nome do Pet and Serviço lines (the service's raw value, not a
 * display name), an Observações line only when a message was typed, and the
 * closing question. The handler builds it by appending one piece at a time.
 */
module ContactMessages {
  import opened Messages
  import opened Sequences

  const ContactHeader: string := "\U{1F43E} *CONTRATAÇÃO DE SERVIÇOS* \U{1F43E}"
  const ContactGreeting: string := "Olá Janaina! Gostaria de contratar seus serviços de tosa profissional."
  const AvailabilityQuestion: string := "Quando você tem disponibilidade para atender?"

  /**
   * The message's lines around its three fixed texts. Unlike the booking
   * message, an empty Observações leaves no line at all.
   */
  function ContactLayout(header: string, greeting: string, question: string,
                         name: string, phone: string, petName: string, service: string, message: string): seq<Line> {
    [Text(header), Text(""), Text(greeting), Text(""),
     Field("Nome", name), Field("Telefone", phone), Field("Nome do Pet", petName), Field("Serviço", service)]
    + (if message != "" then [Field("Observações", message)] else [])
    + [Text(""), Text(question)]
  }

  /** The message's lines. */
  function ContactLines(name: string, phone: string, petName: string, service: string, message: string): seq<Line> {
    ContactLayout(ContactHeader, ContactGreeting, AvailabilityQuestion, name, phone, petName, service, message)
  }

  /** `text` is the lines `ls`, each followed by a line break: the message part way through the handler. */
  ghost predicate Holds(text: string, ls: seq<Line>) {
    |ls| >= 1 && text == JoinLines(RenderLines(ls)) + "\n"
  }

  /** One `+=` of the handler adds a line and its line break. */
  lemma AppendLine(text: string, ls: seq<Line>, l: Line)
    requires Holds(text, ls)
    ensures Holds(text + RenderLine(l) + "\n", ls + [l])
  {
    assert RenderLines(ls + [l]) == RenderLines(ls) + [RenderLine(l)];
    JoinSnoc(RenderLines(ls), RenderLine(l));
  }

  /** The text after one more line of `target` is appended. */
  ghost function Extend(text: string, target: seq<Line>, k: nat): (r: string)
    requires k < |target| && Holds(text, target[..k])
    ensures Holds(r, target[..k + 1])
    ensures r == text + RenderLine(target[k]) + "\n"
  {
    AppendLine(text, target[..k], target[k]);
    PrefixSnoc(target, k);
    text + RenderLine(target[k]) + "\n"
  }

  /** The handler's last `+=`: an empty line, then a last line `q` with no line break after it. */
  lemma AppendClosing(text: string, ls: seq<Line>, q: string)
    requires Holds(text, ls)
    ensures text + "\n" + q == JoinLines(RenderLines(ls + [Text(""), Text(q)]))
  {
    var withBlank := ls + [Text("")];
    assert JoinLines(RenderLines(withBlank)) == text by {
      assert RenderLines(withBlank) == RenderLines(ls) + [""];
      JoinSnoc(RenderLines(ls), "");
    }
    assert JoinLines(RenderLines(withBlank + [Text(q)])) == text + "\n" + q by {
      assert RenderLines(withBlank + [Text(q)]) == RenderLines(withBlank) + [q];
      JoinSnoc(RenderLines(withBlank), q);
    }
    assert withBlank + [Text(q)] == ls + [Text(""), Text(q)];
  }

  /** The handler's appends up to the Serviço line give the layout's first eight lines. */
  lemma AppendsGiveHead(header: string, greeting: string, question: string,
                        name: string, phone: string, petName: string, service: string, message: string)
    ensures Holds(header + "\n\n" + greeting + "\n\n"
        + RenderLine(Field("Nome", name)) + "\n" + RenderLine(Field("Telefone", phone)) + "\n"
        + RenderLine(Field("Nome do Pet", petName)) + "\n" + RenderLine(Field("Serviço", service)) + "\n",
      ContactLayout(header, greeting, question, name, phone, petName, service, message)[..8])
  {
    var target := ContactLayout(header, greeting, question, name, phone, petName, service, message);
    var text := header + "\n\n";
    assert Holds(text, target[..2]) by {
      assert RenderLines(target[..2]) == [header] + [""];
      JoinSnoc([header], "");
    }
    text := Extend(text, target, 2);
    text := Extend(text, target, 3);
    assert text == header + "\n\n" + greeting + "\n\n";
    text := Extend(text, target, 4);
    text := Extend(text, target, 5);
    text := Extend(text, target, 6);
    text := Extend(text, target, 7);
  }

  /**
   * The handler's appends, for any fixed texts: header and blank line, greeting
   * and blank line, the four labelled lines, the optional one, a blank line and
   * the question, give the layout joined by line breaks.
   */
  lemma AppendsGiveLayout(header: string, greeting: string, question: string,
                          name: string, phone: string, petName: string, service: string, message: string)
    ensures var head := header + "\n\n" + greeting + "\n\n"
        + RenderLine(Field("Nome", name)) + "\n" + RenderLine(Field("Telefone", phone)) + "\n"
        + RenderLine(Field("Nome do Pet", petName)) + "\n" + RenderLine(Field("Serviço", service)) + "\n";
      var body := if message != "" then head + RenderLine(Field("Observações", message)) + "\n" else head;
      body + "\n" + question
        == JoinLines(RenderLines(ContactLayout(header, greeting, question, name, phone, petName, service, message)))
  {
    var target := ContactLayout(header, greeting, question, name, phone, petName, service, message);
    AppendsGiveHead(header, greeting, question, name, phone, petName, service, message);
    var text := header + "\n\n" + greeting + "\n\n"
        + RenderLine(Field("Nome", name)) + "\n" + RenderLine(Field("Telefone", phone)) + "\n"
        + RenderLine(Field("Nome do Pet", petName)) + "\n" + RenderLine(Field("Serviço", service)) + "\n";
    var k := 8;
    if message != "" {
      text := Extend(text, target, 8);
      k := 9;
    }
    AppendClosing(text, target[..k], question);
    assert target[..k] + [Text(""), Text(question)] == target;
  }

  /**
   * The submit handler: the `whatsappMessage +=` sequence, then the wa.me link
   * with the message encoded by `encode` (encodeURIComponent).
   */
  method BuildContactMessage(name: string, phone: string, petName: string, service: string, message: string,
                             encode: string -> string)
    returns (text: string, url: string)
    ensures text == JoinLines(RenderLines(ContactLines(name, phone, petName, service, message)))
    ensures url == HandoffUrl(text, encode)
  {
    text := ContactHeader + "\n\n";
    text := text + ContactGreeting + "\n\n";
    text := text + RenderLine(Field("Nome", name)) + "\n";
    text := text + RenderLine(Field("Telefone", phone)) + "\n";
    text := text + RenderLine(Field("Nome do Pet", petName)) + "\n";
    text := text + RenderLine(Field("Serviço", service)) + "\n";
    if message != "" {
      text := text + RenderLine(Field("Observações", message)) + "\n";
    }
    text := text + "\n" + AvailabilityQuestion;
    AppendsGiveLayout(ContactHeader, ContactGreeting, AvailabilityQuestion, name, phone, petName, service, message);
    url := WhatsAppPrefix + encode(text);
  }

  /**
   * The fields appear in the fixed order Nome, Telefone, Nome do Pet, Serviço,
   * then Observações only when a message was typed; the message has 10 or 11 lines.
   */
  lemma ContactFields(name: string, phone: string, petName: string, service: string, message: string)
    ensures |ContactLines(name, phone, petName, service, message)| == if message != "" then 11 else 10
    ensures Fields(ContactLines(name, phone, petName, service, message)) ==
      [("Nome", name), ("Telefone", phone), ("Nome do Pet", petName), ("Serviço", service)]
      + OptionalPair("Observações", message)
  {
    var preamble := [Text(ContactHeader), Text(""), Text(ContactGreeting), Text("")];
    var body := [Field("Nome", name), Field("Telefone", phone), Field("Nome do Pet", petName), Field("Serviço", service)];
    var optional := if message != "" then [Field("Observações", message)] else [];
    var closing := [Text(""), Text(AvailabilityQuestion)];
    assert ContactLines(name, phone, petName, service, message) == preamble + body + optional + closing;
    FieldsOfText(preamble);
    FieldsOfText(closing);
    FieldsAppend(preamble + body + optional, closing);
    FieldsAppend(preamble + body, optional);
    FieldsAppend(preamble, body);
    FieldsOfBody(body);
  }

  /** The message opens with the header and always closes with the availability question. */
  lemma ContactFrame(name: string, phone: string, petName: string, service: string, message: string)
    ensures var m := JoinLines(RenderLines(ContactLines(name, phone, petName, service, message)));
      && |ContactHeader| <= |m| && m[..|ContactHeader|] == ContactHeader
      && |AvailabilityQuestion| <= |m| && m[|m| - |AvailabilityQuestion|..] == AvailabilityQuestion
  {
    var rendered := RenderLines(ContactLines(name, phone, petName, service, message));
    JoinStartsWithFirst(rendered);
    JoinEndsWithLast(rendered);
  }
}
