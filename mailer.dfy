/** The mail helper of the API server: whether a transport is configured, the field rows of the three
    notification emails, and the message `sendMail` hands to the transport. The environment is a map
    from variable name to text; an absent variable and an empty one are both falsy. */
module Mailer {
  import opened Wrappers
  import Json
  import Strings

  type Env = map<string, string>

  const MailerVar := "MAIL_MAILER"
  const HostVar := "MAIL_HOST"
  const PortVar := "MAIL_PORT"
  const UserVar := "MAIL_USERNAME"
  const PassVar := "MAIL_PASSWORD"
  const EncryptionVar := "MAIL_ENCRYPTION"
  const FromAddressVar := "MAIL_FROM_ADDRESS"
  const FromNameVar := "MAIL_FROM_NAME"

  /** The variables without which no transport is built. */
  const RequiredVars := [HostVar, PortVar, UserVar, PassVar, FromAddressVar]

  const SmtpMailer := "smtp"
  const SslEncryption := "ssl"
  const SecurePort := 465
  const DefaultFromName := "KRM Mobilindo"

  /** `process.env.X || ''`. */
  function EnvText(env: Env, key: string): string {
    if key in env then env[key] else ""
  }

  predicate IsSet(env: Env, key: string) {
    key in env && env[key] != ""
  }

  /** The options given to `createTransport`; `port` is `Number(MAIL_PORT)`, `None` standing for NaN. */
  datatype TransportConfig = TransportConfig(host: string, port: Option<nat>, secure: bool, user: string, pass: string)

  /** `buildTransporter`: no transport when a required variable is missing or `MAIL_MAILER` names
      another mailer; otherwise SMTP, secure when the encryption is `ssl` in any case or the port is 465. */
  function BuildTransporter(env: Env): (t: Option<TransportConfig>)
    ensures t.Some? <==>
      (forall k :: k in RequiredVars ==> IsSet(env, k)) && (!IsSet(env, MailerVar) || env[MailerVar] == SmtpMailer)
    ensures t.Some? ==>
      && t.value.host == EnvText(env, HostVar) && t.value.user == EnvText(env, UserVar)
      && t.value.pass == EnvText(env, PassVar) && t.value.port == Strings.ParseNat(EnvText(env, PortVar))
    ensures t.Some? ==>
      (t.value.secure <==> Strings.ToLower(EnvText(env, EncryptionVar)) == SslEncryption || t.value.port == Some(SecurePort))
  {
    if !IsSet(env, HostVar) || !IsSet(env, PortVar) || !IsSet(env, UserVar) || !IsSet(env, PassVar)
       || !IsSet(env, FromAddressVar) then
      None
    else if IsSet(env, MailerVar) && env[MailerVar] != SmtpMailer then
      None
    else
      var port := Strings.ParseNat(env[PortVar]);
      var encryption := Strings.ToLower(EnvText(env, EncryptionVar));
      Some(TransportConfig(env[HostVar], port, encryption == SslEncryption || port == Some(SecurePort),
        env[UserVar], env[PassVar]))
  }

  /** Removing any required variable switches mail off. */
  lemma MissingVariableDisablesMail(env: Env, k: string)
    requires k in RequiredVars
    ensures BuildTransporter(env - {k}).None?
  {
    assert !IsSet(env - {k}, k);
  }

  /** An empty `MAIL_MAILER` behaves as an unset one. */
  lemma EmptyMailerIsUnset(env: Env)
    ensures BuildTransporter(env[MailerVar := ""]) == BuildTransporter(env - {MailerVar})
  {
    var a, b := env[MailerVar := ""], env - {MailerVar};
    forall k | k != MailerVar ensures IsSet(a, k) == IsSet(b, k) && EnvText(a, k) == EnvText(b, k) {
    }
    assert forall k :: k in RequiredVars ==> k != MailerVar;
  }

  /** Port 465 is always secure, whatever the encryption says. */
  lemma {:induction false} PortSecureIsSecure(env: Env)
    requires BuildTransporter(env).Some?
    requires env[PortVar] == Strings.NatToString(SecurePort)
    ensures BuildTransporter(env).value.secure
  {
    Strings.ParseNatRoundTrip(SecurePort);
  }

  // ---------------------------------------------------------------------------------------------
  // formatFieldRow

  const RowOpen := "\n  <tr>\n    <td style=\"padding:6px 0;color:#475569;font-weight:600;vertical-align:top;\">"
  const RowMiddle := "</td>\n    <td style=\"padding:6px 0;color:#0f172a;\">"
  const RowClose := "</td>\n  </tr>\n"
  const EmptyCell := "-"

  /** `${value || '-'}`. */
  function CellText(value: Json.Value): (c: string)
    ensures Json.Truthy(value) ==> c == Json.ToText(value)
    ensures !Json.Truthy(value) ==> c == EmptyCell
  {
    Json.ToText(Json.Or(value, Json.Str(EmptyCell)))
  }

  /** One table row: the caption cell, then the value cell. */
  function FormatFieldRow(caption: string, value: Json.Value): (r: string)
    ensures Strings.StartsWith(r, RowOpen + caption + RowMiddle)
    ensures r[|RowOpen + caption + RowMiddle|..] == CellText(value) + RowClose
  {
    RowOpen + caption + RowMiddle + CellText(value) + RowClose
  }

  // ---------------------------------------------------------------------------------------------
  // The three emails

  datatype Field = Field(caption: string, value: Json.Value)

  /** `buildEmailLayout`'s four slots; the surrounding markup is fixed. */
  datatype Email = Email(heading: string, intro: string, rows: string, footerNote: string)

  function Captions(fields: seq<Field>): (r: seq<string>)
    ensures |r| == |fields| && forall i :: 0 <= i < |fields| ==> r[i] == fields[i].caption
  {
    seq(|fields|, i requires 0 <= i < |fields| => fields[i].caption)
  }

  /** The fixed markup of one row, around its caption and value. */
  const RowMarkupLength := |RowOpen| + |RowMiddle| + |RowClose|

  /** `rows.join('')`: the rows in field order, each carrying at least its fixed markup. */
  function RowsHtml(fields: seq<Field>): (r: string)
    ensures fields == [] ==> r == ""
    ensures fields != [] ==> Strings.StartsWith(r, FormatFieldRow(fields[0].caption, fields[0].value))
    ensures |r| >= |fields| * RowMarkupLength
    decreases |fields|
  {
    if fields == [] then ""
    else
      var first := FormatFieldRow(fields[0].caption, fields[0].value);
      var r := first + RowsHtml(fields[1..]);
      assert r[..|first|] == first;
      r
  }

  /** The rows of two field lists are the rows of the first followed by those of the second. */
  lemma {:induction false} RowsHtmlAppend(a: seq<Field>, b: seq<Field>)
    ensures RowsHtml(a + b) == RowsHtml(a) + RowsHtml(b)
    decreases |a|
  {
    if a == [] {
      assert a + b == b;
    } else {
      assert (a + b)[0] == a[0];
      assert (a + b)[1..] == a[1..] + b;
      RowsHtmlAppend(a[1..], b);
    }
  }

  const NamaProspek := "Nama Prospek"
  const NoHp := "No. HP"
  const Alamat := "Alamat"
  const Kebutuhan := "Kebutuhan"
  const SalesCaption := "Sales"
  const EmailSales := "Email Sales"
  const TanggalInput := "Tanggal Input"
  const JadwalFollowUp := "Jadwal Follow-Up"
  const CatatanAdmin := "Catatan Admin"
  const DitugaskanOleh := "Ditugaskan Oleh"
  const EmailAdmin := "Email Admin"
  const SalesTujuan := "Sales Tujuan"
  const CatatanSales := "Catatan Sales"
  const DiselesaikanPada := "Diselesaikan Pada"
  const AdminPenanggungJawab := "Admin Penanggung Jawab"

  /** The label order of each email. */
  const ProspectCaptions := [NamaProspek, NoHp, Alamat, Kebutuhan, SalesCaption, EmailSales, TanggalInput]
  const AssignedCaptions :=
    [NamaProspek, NoHp, Kebutuhan, JadwalFollowUp, CatatanAdmin, DitugaskanOleh, EmailAdmin, SalesTujuan, EmailSales]
  const CompletedCaptions :=
    [NamaProspek, NoHp, Kebutuhan, JadwalFollowUp, CatatanSales, DiselesaikanPada, SalesCaption, EmailSales,
     AdminPenanggungJawab, EmailAdmin]

  /** `followUp.notes || '-'`. */
  function NotesOrDash(followUp: Json.Value): Json.Value {
    Json.Or(Json.Get(followUp, "notes"), Json.Str(EmptyCell))
  }

  /** The rows of `buildProspectEmail`; `createdAt` is the creation time already formatted for `id-ID`. */
  function ProspectFields(prospect: Json.Value, salesProfile: Json.Value, createdAt: string): (r: seq<Field>)
    ensures Captions(r) == ProspectCaptions
    ensures r[0].value == Json.Get(prospect, "nama") && r[4].value == Json.Get(salesProfile, "full_name")
    ensures r[5].value == Json.Get(salesProfile, "email") && r[6].value == Json.Str(createdAt)
  {
    [Field(NamaProspek, Json.Get(prospect, "nama")), Field(NoHp, Json.Get(prospect, "no_hp")),
     Field(Alamat, Json.Get(prospect, "alamat")), Field(Kebutuhan, Json.Get(prospect, "kebutuhan")),
     Field(SalesCaption, Json.Get(salesProfile, "full_name")), Field(EmailSales, Json.Get(salesProfile, "email")),
     Field(TanggalInput, Json.Str(createdAt))]
  }

  /** The rows of `buildFollowUpAssignedEmail`; `scheduled` is the formatted schedule. */
  function AssignedFields(followUp: Json.Value, prospect: Json.Value, assignedBy: Json.Value, assignedTo: Json.Value,
                          scheduled: string): (r: seq<Field>)
    ensures Captions(r) == AssignedCaptions
    ensures r[4].value == NotesOrDash(followUp)
    ensures r[5].value == Json.Get(assignedBy, "full_name") && r[8].value == Json.Get(assignedTo, "email")
  {
    [Field(NamaProspek, Json.Get(prospect, "nama")), Field(NoHp, Json.Get(prospect, "no_hp")),
     Field(Kebutuhan, Json.Get(prospect, "kebutuhan")), Field(JadwalFollowUp, Json.Str(scheduled)),
     Field(CatatanAdmin, NotesOrDash(followUp)),
     Field(DitugaskanOleh, Json.Get(assignedBy, "full_name")), Field(EmailAdmin, Json.Get(assignedBy, "email")),
     Field(SalesTujuan, Json.Get(assignedTo, "full_name")), Field(EmailSales, Json.Get(assignedTo, "email"))]
  }

  /** The rows of `buildFollowUpCompletedEmail`: the sales user comes before the admin here. */
  function CompletedFields(followUp: Json.Value, prospect: Json.Value, assignedBy: Json.Value, assignedTo: Json.Value,
                           scheduled: string, completed: string): (r: seq<Field>)
    ensures Captions(r) == CompletedCaptions
    ensures r[4].value == NotesOrDash(followUp) && r[5].value == Json.Str(completed)
    ensures r[6].value == Json.Get(assignedTo, "full_name") && r[8].value == Json.Get(assignedBy, "full_name")
  {
    [Field(NamaProspek, Json.Get(prospect, "nama")), Field(NoHp, Json.Get(prospect, "no_hp")),
     Field(Kebutuhan, Json.Get(prospect, "kebutuhan")), Field(JadwalFollowUp, Json.Str(scheduled)),
     Field(CatatanSales, NotesOrDash(followUp)), Field(DiselesaikanPada, Json.Str(completed)),
     Field(SalesCaption, Json.Get(assignedTo, "full_name")), Field(EmailSales, Json.Get(assignedTo, "email")),
     Field(AdminPenanggungJawab, Json.Get(assignedBy, "full_name")), Field(EmailAdmin, Json.Get(assignedBy, "email"))]
  }

  /** Both follow-up emails open with the same four rows. */
  lemma FollowUpEmailsShareOpening(followUp: Json.Value, prospect: Json.Value, assignedBy: Json.Value,
                                   assignedTo: Json.Value, scheduled: string, completed: string)
    ensures AssignedFields(followUp, prospect, assignedBy, assignedTo, scheduled)[..4]
         == CompletedFields(followUp, prospect, assignedBy, assignedTo, scheduled, completed)[..4]
  {
  }

  /** A follow-up whose notes column is text or null never shows an empty notes cell. */
  lemma NotesNeverBlank(followUp: Json.Value)
    requires Json.Get(followUp, "notes").Str? || Json.Get(followUp, "notes") == Json.Null
    ensures Json.Truthy(NotesOrDash(followUp))
    ensures CellText(NotesOrDash(followUp)) != ""
  {
  }

  /** The three builders put their heading, introduction, rows and footer note into the layout. */
  const ProspectHeading := "Prospek Baru Masuk"
  const ProspectIntro := "Prospek baru telah ditambahkan ke sistem. Berikut detailnya:"
  const ProspectFooter :=
    "Silakan login ke dashboard admin untuk menindaklanjuti prospek ini dan menjadwalkan follow-up."
  const AssignedHeading := "Penugasan Follow-Up Baru"
  const AssignedIntro := "Anda menerima penugasan follow-up baru. Detail penugasan tersedia di bawah ini:"
  const AssignedFooter := "Mohon pastikan follow-up dilakukan sesuai jadwal dan perbarui statusnya di aplikasi."
  const CompletedHeading := "Follow-Up Selesai"
  const CompletedIntro := "Follow-up prospek telah diselesaikan. Berikut ringkasannya:"
  const CompletedFooter := "Silakan cek detail lengkap di dashboard admin untuk memastikan tindak lanjut berikutnya."

  function ProspectEmail(prospect: Json.Value, salesProfile: Json.Value, createdAt: string): (e: Email)
    ensures e.heading == ProspectHeading && e.intro == ProspectIntro && e.footerNote == ProspectFooter
    ensures Strings.StartsWith(e.rows, FormatFieldRow(NamaProspek, Json.Get(prospect, "nama")))
  {
    Email(ProspectHeading, ProspectIntro, RowsHtml(ProspectFields(prospect, salesProfile, createdAt)), ProspectFooter)
  }

  function AssignedEmail(followUp: Json.Value, prospect: Json.Value, assignedBy: Json.Value, assignedTo: Json.Value,
                         scheduled: string): (e: Email)
    ensures e.heading == AssignedHeading && e.intro == AssignedIntro && e.footerNote == AssignedFooter
    ensures Strings.StartsWith(e.rows, FormatFieldRow(NamaProspek, Json.Get(prospect, "nama")))
  {
    Email(AssignedHeading, AssignedIntro, RowsHtml(AssignedFields(followUp, prospect, assignedBy, assignedTo, scheduled)),
      AssignedFooter)
  }

  function CompletedEmail(followUp: Json.Value, prospect: Json.Value, assignedBy: Json.Value, assignedTo: Json.Value,
                          scheduled: string, completed: string): (e: Email)
    ensures e.heading == CompletedHeading && e.intro == CompletedIntro && e.footerNote == CompletedFooter
    ensures Strings.StartsWith(e.rows, FormatFieldRow(NamaProspek, Json.Get(prospect, "nama")))
  {
    Email(CompletedHeading, CompletedIntro,
      RowsHtml(CompletedFields(followUp, prospect, assignedBy, assignedTo, scheduled, completed)), CompletedFooter)
  }

  /** The assignment and completion emails of one follow-up open with the same rendered rows: the
      prospect's name, phone, needs and the schedule. */
  lemma FollowUpEmailsShareOpeningRows(followUp: Json.Value, prospect: Json.Value, assignedBy: Json.Value,
                                       assignedTo: Json.Value, scheduled: string, completed: string)
    ensures var opening := RowsHtml(AssignedFields(followUp, prospect, assignedBy, assignedTo, scheduled)[..4]);
      Strings.StartsWith(AssignedEmail(followUp, prospect, assignedBy, assignedTo, scheduled).rows, opening)
      && Strings.StartsWith(CompletedEmail(followUp, prospect, assignedBy, assignedTo, scheduled, completed).rows, opening)
  {
    var a := AssignedFields(followUp, prospect, assignedBy, assignedTo, scheduled);
    var c := CompletedFields(followUp, prospect, assignedBy, assignedTo, scheduled, completed);
    FollowUpEmailsShareOpening(followUp, prospect, assignedBy, assignedTo, scheduled, completed);
    assert a == a[..4] + a[4..];
    assert c == c[..4] + c[4..];
    RowsHtmlAppend(a[..4], a[4..]);
    RowsHtmlAppend(c[..4], c[4..]);
    var opening := RowsHtml(a[..4]);
    assert RowsHtml(a)[..|opening|] == opening;
    assert RowsHtml(c)[..|opening|] == opening;
  }

  // ---------------------------------------------------------------------------------------------
  // sendMail

  /** The message handed to the transport. */
  datatype OutgoingMail = OutgoingMail(transport: TransportConfig, from: string, to: string, subject: string, html: string)

  /** `${MAIL_FROM_NAME || 'KRM Mobilindo'}`. */
  function FromName(env: Env): (name: string)
    ensures IsSet(env, FromNameVar) ==> name == env[FromNameVar]
    ensures !IsSet(env, FromNameVar) ==> name == DefaultFromName
  {
    if IsSet(env, FromNameVar) then env[FromNameVar] else DefaultFromName
  }

  /** `name <address>`. */
  function FromHeader(name: string, address: string): (h: string)
    ensures Strings.StartsWith(h, name + " <")
    ensures |h| == |name| + |address| + 3 && h[|name| + 2..|h| - 1] == address && h[|h| - 1] == '>'
  {
    name + " <" + address + ">"
  }

  /** `sendMail`: nothing is sent without a transport; otherwise one message from the configured sender. */
  function SendMail(env: Env, to: string, subject: string, html: string): (m: Option<OutgoingMail>)
    ensures m.None? <==> BuildTransporter(env).None?
    ensures m.Some? ==> m.value.transport == BuildTransporter(env).value
    ensures m.Some? ==> m.value.from == FromHeader(FromName(env), EnvText(env, FromAddressVar))
    ensures m.Some? ==> m.value.to == to && m.value.subject == subject && m.value.html == html
  {
    var t := BuildTransporter(env);
    if t.None? then None
    else Some(OutgoingMail(t.value, FromHeader(FromName(env), EnvText(env, FromAddressVar)), to, subject, html))
  }

  /** Every message that is sent names a non-empty sender address, because the transport needs one. */
  lemma SentMailHasSender(env: Env, to: string, subject: string, html: string)
    requires SendMail(env, to, subject, html).Some?
    ensures var h := SendMail(env, to, subject, html).value.from;
      |h| > 3 + |FromName(env)| && h[|FromName(env)| + 2..|h| - 1] == env[FromAddressVar]
  {
    assert FromAddressVar in RequiredVars;
  }
}
