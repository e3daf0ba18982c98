/**
 * The scheduler's booking message (submitBooking): one of two fixed templates,
 * chosen only by whether the service is `dia-freelancer`, filled with the
 * formatted date, the selected time (hourly template only), the form fields and
 * the service's display name; the optional lines are left empty, not removed,
 * when their field is empty.
 */
module BookingMessages {
  import opened Messages

  /** The service code the whole-day template is keyed on. */
  const FreelancerService: string := "dia-freelancer"

  /** getServiceName's table: the six service codes of the form's select and their display names. */
  const ServiceNames: map<string, string> := map[
    "dia-freelancer" := "Dia de Freelancer (Dia Completo)",
    "banho" := "Banho",
    "tosa-higienica" := "Tosa Higiênica",
    "tosa-tesoura" := "Tosa na Tesoura",
    "tosa-maquina" := "Tosa na Máquina",
    "tosa-raca" := "Tosa da Raça"
  ]

  const FreelancerHeader: string := "\U{1F43E} *CONTRATAÇÃO - DIA DE FREELANCER* \U{1F43E}"
  const FreelancerGreeting: string := "Olá Janaina! Gostaria de contratar seus serviços para um dia completo de freelancer."
  const FreelancerClosing: string := "Aguardo sua confirmação para o dia completo de trabalho de freelancer!"
  const HourlyHeader: string := "\U{1F43E} *AGENDAMENTO DE TOSA* \U{1F43E}"
  const HourlyGreeting: string := "Olá Janaina! Gostaria de agendar um horário."
  const HourlyClosing: string := "Aguardo sua confirmação!"

  /** The values of the booking form's fields when it is submitted. */
  datatype BookingForm = BookingForm(
    name: string, phone: string, petName: string, service: string, observations: string)

  /**
   * getServiceName: the display name of a known code; any other value, the
   * empty one included, is returned unchanged (`services[value] || value`).
   */
  function ServiceName(code: string): (name: string)
    ensures code in ServiceNames ==> name == ServiceNames[code]
    ensures name == code <==> code !in ServiceNames
  {
    if code in ServiceNames && ServiceNames[code] != "" then ServiceNames[code] else code
  }

  /** The message's lines; `date` is the formatted selected date, `time` the selected time. */
  function BookingLines(form: BookingForm, date: string, time: string): seq<Line> {
    if form.service == FreelancerService then
      [Text(FreelancerHeader), Text(""), Text(FreelancerGreeting), Text("")]
      + [Field("Data", date), Field("Serviço", ServiceName(form.service)),
         Field("Nome", form.name), Field("Telefone", form.phone)]
      + [OptionalField("Empresa/Cliente", form.petName), OptionalField("Observações", form.observations)]
      + [Text(""), Text(FreelancerClosing)]
    else
      [Text(HourlyHeader), Text(""), Text(HourlyGreeting), Text("")]
      + [Field("Data", date), Field("Horário", time), Field("Nome", form.name),
         Field("Telefone", form.phone), Field("Nome do Pet", form.petName),
         Field("Serviço", ServiceName(form.service))]
      + [OptionalField("Observações", form.observations)]
      + [Text(""), Text(HourlyClosing)]
  }

  /** The message text handed to WhatsApp. */
  function ComposeBooking(form: BookingForm, date: string, time: string): string {
    JoinLines(RenderLines(BookingLines(form, date, time)))
  }

  /**
   * The labelled fields of the message, in order, and its line count. The
   * whole-day template carries Data, Serviço, Nome, Telefone, then Empresa/Cliente
   * and Observações only when filled; the hourly template carries Data, Horário,
   * Nome, Telefone, Nome do Pet, Serviço, then Observações only when filled. An
   * omitted line stays as an empty line, so the line count is fixed per template.
   */
  lemma BookingFields(form: BookingForm, date: string, time: string)
    ensures var lines := BookingLines(form, date, time);
      |lines| == (if form.service == FreelancerService then 12 else 13)
    ensures Fields(BookingLines(form, date, time)) ==
      if form.service == FreelancerService then
        [("Data", date), ("Serviço", ServiceName(form.service)), ("Nome", form.name), ("Telefone", form.phone)]
        + OptionalPair("Empresa/Cliente", form.petName) + OptionalPair("Observações", form.observations)
      else
        [("Data", date), ("Horário", time), ("Nome", form.name), ("Telefone", form.phone),
         ("Nome do Pet", form.petName), ("Serviço", ServiceName(form.service))]
        + OptionalPair("Observações", form.observations)
  {
    if form.service == FreelancerService {
      FreelancerFields(form, date, time);
    } else {
      HourlyFields(form, date, time);
    }
  }

  /**
   * An optional field left empty leaves an empty line in its place: Empresa/Cliente
   * and Observações are the 9th and 10th lines of the whole-day message, and
   * Observações is the 11th line of the hourly one.
   */
  lemma OmittedLinesStayEmpty(form: BookingForm, date: string, time: string)
    ensures var rendered := RenderLines(BookingLines(form, date, time));
      if form.service == FreelancerService then
        && |rendered| == 12
        && (form.petName == "" ==> rendered[8] == "")
        && (form.observations == "" ==> rendered[9] == "")
      else
        && |rendered| == 13
        && (form.observations == "" ==> rendered[10] == "")
  {
    var lines := BookingLines(form, date, time);
    if form.service == FreelancerService {
      assert lines[8] == OptionalField("Empresa/Cliente", form.petName);
      assert lines[9] == OptionalField("Observações", form.observations);
    } else {
      assert lines[10] == OptionalField("Observações", form.observations);
    }
  }

  /** BookingFields for the whole-day template. */
  lemma FreelancerFields(form: BookingForm, date: string, time: string)
    requires form.service == FreelancerService
    ensures |BookingLines(form, date, time)| == 12
    ensures Fields(BookingLines(form, date, time)) ==
      [("Data", date), ("Serviço", ServiceName(form.service)), ("Nome", form.name), ("Telefone", form.phone)]
      + OptionalPair("Empresa/Cliente", form.petName) + OptionalPair("Observações", form.observations)
  {
    var preamble := [Text(FreelancerHeader), Text(""), Text(FreelancerGreeting), Text("")];
    var body := [Field("Data", date), Field("Serviço", ServiceName(form.service)),
                 Field("Nome", form.name), Field("Telefone", form.phone)];
    var optional := [OptionalField("Empresa/Cliente", form.petName), OptionalField("Observações", form.observations)];
    var closing := [Text(""), Text(FreelancerClosing)];
    assert BookingLines(form, date, time) == preamble + body + optional + closing;
    FieldsOfText(preamble);
    FieldsOfText(closing);
    FieldsAppend(preamble + body + optional, closing);
    FieldsAppend(preamble + body, optional);
    FieldsAppend(preamble, body);
    assert optional == [optional[0]] + [optional[1]];
    FieldsAppend([optional[0]], [optional[1]]);
    FieldsOfOptional("Empresa/Cliente", form.petName);
    FieldsOfOptional("Observações", form.observations);
    FieldsOfBody(body);
  }

  /** BookingFields for the hourly template. */
  lemma HourlyFields(form: BookingForm, date: string, time: string)
    requires form.service != FreelancerService
    ensures |BookingLines(form, date, time)| == 13
    ensures Fields(BookingLines(form, date, time)) ==
      [("Data", date), ("Horário", time), ("Nome", form.name), ("Telefone", form.phone),
       ("Nome do Pet", form.petName), ("Serviço", ServiceName(form.service))]
      + OptionalPair("Observações", form.observations)
  {
    var preamble := [Text(HourlyHeader), Text(""), Text(HourlyGreeting), Text("")];
    var body := [Field("Data", date), Field("Horário", time), Field("Nome", form.name),
                 Field("Telefone", form.phone), Field("Nome do Pet", form.petName),
                 Field("Serviço", ServiceName(form.service))];
    var optional := [OptionalField("Observações", form.observations)];
    var closing := [Text(""), Text(HourlyClosing)];
    assert BookingLines(form, date, time) == preamble + body + optional + closing;
    FieldsOfText(preamble);
    FieldsOfText(closing);
    FieldsAppend(preamble + body + optional, closing);
    FieldsAppend(preamble + body, optional);
    FieldsAppend(preamble, body);
    FieldsOfOptional("Observações", form.observations);
    FieldsOfBody(body);
  }

  /** The whole-day template has no Horário line, whatever the selected time. */
  lemma FreelancerOmitsTime(form: BookingForm, date: string, time: string)
    requires form.service == FreelancerService
    ensures forall f :: f in Fields(BookingLines(form, date, time)) ==> f.0 != "Horário"
  {
    FreelancerFields(form, date, time);
  }

  /** The hourly template states the selected time, and the service's display name, exactly once. */
  lemma HourlyStatesTime(form: BookingForm, date: string, time: string)
    requires form.service != FreelancerService
    ensures var fields := Fields(BookingLines(form, date, time));
      && |fields| >= 6
      && fields[1] == ("Horário", time)
      && fields[5] == ("Serviço", ServiceName(form.service))
      && forall i :: 0 <= i < |fields| && i != 1 ==> fields[i].0 != "Horário"
  {
    HourlyFields(form, date, time);
  }

  /** The template is chosen by the service code alone: the message opens with that template's header. */
  lemma MessageOpensWithHeader(form: BookingForm, date: string, time: string)
    ensures var m := ComposeBooking(form, date, time);
      var header := if form.service == FreelancerService then FreelancerHeader else HourlyHeader;
      |header| <= |m| && m[..|header|] == header
  {
    JoinStartsWithFirst(RenderLines(BookingLines(form, date, time)));
  }

  /** The six codes of the form's select get their display names; anything else is shown as typed. */
  lemma ServiceNamesOfTheForm()
    ensures ServiceName("dia-freelancer") == "Dia de Freelancer (Dia Completo)"
    ensures ServiceName("banho") == "Banho"
    ensures ServiceName("tosa-higienica") == "Tosa Higiênica"
    ensures ServiceName("tosa-tesoura") == "Tosa na Tesoura"
    ensures ServiceName("tosa-maquina") == "Tosa na Máquina"
    ensures ServiceName("tosa-raca") == "Tosa da Raça"
    ensures ServiceName("") == ""
  {
  }
}
