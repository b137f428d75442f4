/** The contact form of the portfolio (portfolio/src/components/Contact.js):
    three text inputs, a submit that requires email and message, and the
    Gmail compose URL it opens. */
module Contact {
  import opened Wrappers
  import opened Strings

  datatype ContactFormData = ContactFormData(name: string, email: string, message: string)

  /** The inputs by their `name` attribute. */
  datatype Input = NameInput | EmailInput | MessageInput

  const EmptyForm: ContactFormData := ContactFormData("", "", "")

  /** Everything of the compose URL before the encoded subject. */
  const ComposePrefix: string := "https://mail.google.com/mail/?view=cm&fs=1&to=ragavan.v2023aiml@sece.ac.in&su="
  const BodyKey: string := "body="

  /** `{ ...formData, [name]: value }`. */
  function WithInput(f: ContactFormData, input: Input, value: string): (r: ContactFormData)
    ensures input == NameInput ==> r.name == value && r.email == f.email && r.message == f.message
    ensures input == EmailInput ==> r.email == value && r.name == f.name && r.message == f.message
    ensures input == MessageInput ==> r.message == value && r.name == f.name && r.email == f.email
  {
    match input
    case NameInput => f.(name := value)
    case EmailInput => f.(email := value)
    case MessageInput => f.(message := value)
  }

  /** The URL for an already encoded subject and body. */
  function ComposeUrl(subject: string, body: string): (url: string)
    ensures |url| == |ComposePrefix| + |subject| + 1 + |BodyKey| + |body|
    ensures url[..|ComposePrefix|] == ComposePrefix
  {
    ComposePrefix + subject + "&" + BodyKey + body
  }

  /** Reads the encoded subject and body back out of a compose URL. */
  function ParseComposeUrl(url: string): Option<(string, string)>
  {
    if |url| < |ComposePrefix| || url[..|ComposePrefix|] != ComposePrefix then None
    else
      var (subject, rest) := SplitAtFirst(url[|ComposePrefix|..], '&');
      if |rest| >= |BodyKey| && rest[..|BodyKey|] == BodyKey then Some((subject, rest[|BodyKey|..]))
      else None
  }

  /** An encoded subject never holds `&` (it is escaped as `%26`), so the
      subject and body are read back from the URL unchanged. */
  lemma ComposeUrlRoundTrip(subject: string, body: string)
    requires '&' !in subject
    ensures ParseComposeUrl(ComposeUrl(subject, body)) == Some((subject, body))
  {
    var url := ComposeUrl(subject, body);
    assert url[..|ComposePrefix|] == ComposePrefix;
    assert url[|ComposePrefix|..] == subject + ['&'] + (BodyKey + body);
    SplitAtFirstJoin(subject, '&', BodyKey + body);
    assert (BodyKey + body)[..|BodyKey|] == BodyKey;
    assert (BodyKey + body)[|BodyKey|..] == body;
  }

  class ContactForm {
    var formData: ContactFormData

    constructor ()
      ensures formData == EmptyForm
    {
      formData := EmptyForm;
    }

    /** `handleChange`: only the named input changes. */
    method HandleChange(input: Input, value: string)
      modifies this
      ensures formData == WithInput(old(formData), input, value)
    {
      formData := WithInput(formData, input, value);
    }

    /** `handleSubmit`, with `encode` standing for `encodeURIComponent`.
        An empty email or message opens nothing and keeps the form (the name
        is not checked); otherwise the compose URL is opened and the form is
        cleared. */
    method HandleSubmit(encode: string -> string) returns (composed: Option<string>)
      modifies this
      ensures composed.None? <==> old(formData).email == "" || old(formData).message == ""
      ensures composed.None? ==> formData == old(formData)
      ensures composed.Some? ==>
        && composed.value == ComposeUrl(encode("Contact Message from " + old(formData).email),
                                      encode("Message: " + old(formData).message))
        && formData == EmptyForm
    {
      var email := formData.email;
      var message := formData.message;
      if email == "" || message == "" {
        return None;
      }
      var subject := encode("Contact Message from " + email);
      var body := encode("Message: " + message);
      var gmailUrl := ComposePrefix + subject + "&body=" + body;
      composed := Some(gmailUrl);
      formData := EmptyForm;
    }
  }
}
