/** src/mailer.js: the OAuth token record kept in the `default` token
    document, its refresh, and the Microsoft Graph send with its
    probe-then-refresh rule. The identity provider and Graph are oracles;
    the token document is a field. */
module Mailer {
  import opened Js
  import opened Text

  // --- formatRecipients and the message payload ------------------------------

  /** `formatRecipients(emails)`: nothing for a missing or empty list,
      otherwise one trimmed address per comma-separated piece. */
  function FormatRecipients(emails: Option<string>): (r: seq<string>)
    ensures emails.None? || emails == Some("") ==> r == []
    ensures emails.Some? && emails.value != "" ==>
      |r| == Count(emails.value, ',') + 1 &&
      forall i :: 0 <= i < |r| ==> r[i] == Trim(Split(emails.value, ',')[i])
  {
    match emails
    case None => []
    case Some(s) =>
      if s == "" then []
      else
        TrimAll(Split(s, ','))
  }

  /** `pieces.map((p) => p.trim())`. */
  function TrimAll(pieces: seq<string>): (r: seq<string>)
    ensures |r| == |pieces| && forall i :: 0 <= i < |r| ==> r[i] == Trim(pieces[i])
  {
    seq(|pieces|, i requires 0 <= i < |pieces| => Trim(pieces[i]))
  }

  lemma TrimAllKeeps(pieces: seq<string>)
    requires forall i :: 0 <= i < |pieces| ==> IsCleanAddress(pieces[i])
    ensures TrimAll(pieces) == pieces
  {
    forall i | 0 <= i < |pieces|
      ensures TrimAll(pieces)[i] == pieces[i]
    {
      TrimKeeps(pieces[i]);
    }
  }

  /** An address as `formatRecipients` would produce it: no comma, no white
      space at either end. */
  predicate IsCleanAddress(a: string) {
    ',' !in a && (a != [] ==> !IsWhiteSpace(a[0]) && !IsWhiteSpace(a[|a| - 1]))
  }

  /** The comma-joined list of clean addresses formats back to the same
      addresses, in order; empty pieces included. */
  lemma FormatRecipientsJoin(addresses: seq<string>)
    requires Join(addresses, ",") != ""
    requires forall i :: 0 <= i < |addresses| ==> IsCleanAddress(addresses[i])
    ensures FormatRecipients(Some(Join(addresses, ","))) == addresses
  {
    assert |addresses| >= 1;
    SplitJoin(addresses, ',');
    TrimAllKeeps(addresses);
  }

  /** Every address is trimmed, and splitting is lossless: the untrimmed
      pieces rejoin to the input. */
  lemma FormatRecipientsPieces(s: string)
    requires s != ""
    ensures Join(Split(s, ','), ",") == s
    ensures forall i :: 0 <= i < |FormatRecipients(Some(s))| ==> IsCleanAddress(FormatRecipients(Some(s))[i])
  {
    JoinSplit(s, ',');
    var pieces := Split(s, ',');
    var r := FormatRecipients(Some(s));
    forall i | 0 <= i < |r|
      ensures IsCleanAddress(r[i])
    {
      TrimAbsent(pieces[i], ',');
    }
  }

  /** The fields of `emailData` the payload reads; None is `undefined`. */
  datatype EmailData = EmailData(
    sendTo: Option<string>, copyTo: Option<string>, hiddenCopyTo: Option<string>,
    subject: Option<string>, body: Option<string>,
    attachment: Option<seq<JsValue>>, attachmentPath: Option<seq<string>>)

  /** A file attachment: its name and the path its bytes are read from. */
  datatype Attachment = Attachment(name: JsValue, path: string)

  /** `emailSendData.message`. */
  datatype Message = Message(
    subject: string, contentType: string, content: string,
    toRecipients: seq<string>, ccRecipients: seq<string>, bccRecipients: seq<string>,
    attachments: seq<Attachment>)

  /** `attachmentPath.map((path, index) => ...)`: a missing path list, or a
      missing name list when there are paths, throws. */
  function Attachments(data: EmailData): (r: Result<seq<Attachment>>)
    ensures r.Ok? <==> data.attachmentPath.Some? && (data.attachment.None? ==> |data.attachmentPath.value| == 0)
    ensures r.Ok? ==>
      |r.value| == |data.attachmentPath.value| &&
      forall i :: 0 <= i < |r.value| ==> r.value[i].path == data.attachmentPath.value[i]
    ensures r.Ok? && data.attachment.Some? ==>
      forall i :: 0 <= i < |r.value| ==>
        r.value[i].name == if i < |data.attachment.value| then data.attachment.value[i] else Undefined
  {
    match data.attachmentPath
    case None => Err(TypeError)
    case Some(paths) =>
      if |paths| == 0 then Ok([])
      else match data.attachment
        case None => Err(TypeError)
        case Some(names) =>
          Ok(seq(|paths|, i requires 0 <= i < |paths| =>
            Attachment(if i < |names| then names[i] else Undefined, paths[i])))
  }

  /** `text || fallback`. */
  function OrDefault(text: Option<string>, fallback: string): (r: string)
    ensures text.Some? && text.value != "" ==> r == text.value
    ensures text.None? || text.value == "" ==> r == fallback
    ensures r == "" ==> fallback == ""
  {
    if text.Some? && text.value != "" then text.value else fallback
  }

  /** The `emailSendData.message` literal. */
  function BuildMessage(data: EmailData, attachments: seq<Attachment>): (m: Message)
    ensures m.subject != "" && m.content != "" && m.contentType == "HTML"
    ensures data.subject.None? || data.subject == Some("") ==> m.subject == "Sin Asunto"
    ensures data.body.None? || data.body == Some("") ==> m.content == "Sin contenido"
    ensures data.subject.Some? && data.subject.value != "" ==> m.subject == data.subject.value
    ensures data.body.Some? && data.body.value != "" ==> m.content == data.body.value
    ensures m.attachments == attachments
    ensures m.toRecipients == FormatRecipients(data.sendTo) && m.ccRecipients == FormatRecipients(data.copyTo)
    ensures m.bccRecipients == FormatRecipients(data.hiddenCopyTo)
  {
    Message(OrDefault(data.subject, "Sin Asunto"), "HTML", OrDefault(data.body, "Sin contenido"),
            FormatRecipients(data.sendTo), FormatRecipients(data.copyTo), FormatRecipients(data.hiddenCopyTo),
            attachments)
  }

  // --- the token record ------------------------------------------------------

  /** The token document: whatever object was last saved. */
  type TokenRecord = map<string, JsValue>

  /** `record[key]`, `undefined` when absent. */
  function Field(record: TokenRecord, key: string): JsValue {
    if key in record then record[key] else Undefined
  }

  /** The record after a refresh: only the two token fields are assigned. */
  function WithNewTokens(record: TokenRecord, accessToken: JsValue, refreshToken: JsValue): (r: TokenRecord)
    ensures r.Keys == record.Keys + {"access_token", "refresh_token"}
    ensures r["access_token"] == accessToken && r["refresh_token"] == refreshToken
    ensures forall k :: k in record && k != "access_token" && k != "refresh_token" ==> r[k] == record[k]
  {
    record["access_token" := accessToken]["refresh_token" := refreshToken]
  }

  /** The profile fields `getInfoUserAuth` reads from `/me`. */
  datatype UserProfile = UserProfile(displayName: JsValue, surname: JsValue, givenName: JsValue,
                                     mail: JsValue, userPrincipalName: JsValue)

  /** `user.mail || user.userPrincipalName`. */
  function ProfileEmail(p: UserProfile): (r: JsValue)
    ensures Truthy(p.mail) ==> r == p.mail
    ensures !Truthy(p.mail) ==> r == p.userPrincipalName
  {
    if Truthy(p.mail) then p.mail else p.userPrincipalName
  }

  /** `{ access_token, refresh_token, expires_in, ...userData }`. */
  function ExchangeRecord(accessToken: JsValue, refreshToken: JsValue, expiresIn: JsValue, p: UserProfile): (r: TokenRecord)
    ensures r.Keys == {"access_token", "refresh_token", "expires_in", "display_name", "surname", "given_name", "email"}
    ensures r["email"] == ProfileEmail(p)
    ensures r["access_token"] == accessToken && r["refresh_token"] == refreshToken && r["expires_in"] == expiresIn
  {
    map["access_token" := accessToken, "refresh_token" := refreshToken, "expires_in" := expiresIn,
        "display_name" := p.displayName, "surname" := p.surname, "given_name" := p.givenName,
        "email" := ProfileEmail(p)]
  }

  /** A refresh of a freshly exchanged record keeps the user's e-mail, names
      and the original `expires_in`; `expires_in` is never renewed. */
  lemma RefreshKeepsProfile(accessToken: JsValue, refreshToken: JsValue, expiresIn: JsValue, p: UserProfile,
                            newAccess: JsValue, newRefresh: JsValue)
    ensures var before := ExchangeRecord(accessToken, refreshToken, expiresIn, p);
            var after := WithNewTokens(before, newAccess, newRefresh);
            && after.Keys == before.Keys
            && after["email"] == ProfileEmail(p)
            && after["expires_in"] == expiresIn
            && after["display_name"] == p.displayName
            && after["surname"] == p.surname && after["given_name"] == p.givenName
  {
  }

  /** What the token endpoint answers: new tokens, or the error payload
      (`error.response?.data || error.message`). */
  datatype RefreshOutcome = Refreshed(accessToken: JsValue, refreshToken: JsValue) | RefreshFailed(payload: JsValue)

  /** What the code exchange answers: the token triple, or a failure with
      its `error_description` and message. */
  datatype ExchangeOutcome =
    | Exchanged(accessToken: JsValue, refreshToken: JsValue, expiresIn: JsValue)
    | ExchangeFailed(errorDescription: Option<string>, message: string)

  /** What Graph's `sendMail` answers: a status, or the error payload. */
  datatype SendOutcome = Sent(status: int) | SendFailed(payload: JsValue)

  /** A request made to the identity provider or to Graph. */
  datatype ProviderCall = Probe(bearer: JsValue) | Refresh(refreshToken: JsValue) | Send(bearer: JsValue, message: Message)

  /** What `sendEmailWithGraph` returns: the payload and status, or what its
      `catch` returns. */
  datatype SendResult = Delivered(message: Message, status: int) | Failed(payload: JsValue)

  /** What `exchangeCodeForTokens` returns. */
  datatype Session = Session(accessToken: JsValue, refreshToken: JsValue, expiresIn: JsValue, email: JsValue)

  const ReadError := "Error al leer los tokens."
  const SaveError := "Error al guardar los tokens."
  const NoEmailError := "El correo del usuario no está almacenado."
  const ProfileError := "No se pudo obtener la información del usuario autenticado."

  /** The message `exchangeCodeForTokens` throws on failure. */
  function ExchangeErrorText(description: Option<string>, message: string): (r: string)
    ensures r != ""
  {
    if description.Some? && description.value != "" then description.value
    else if message != "" then message
    else "Error desconocido"
  }

  /** The requests made before the send: the probe, then one refresh if the
      probe fails. */
  function TokenCalls(accessToken: JsValue, refreshToken: JsValue, probeOk: JsValue -> bool): seq<ProviderCall>
  {
    [Probe(accessToken)] + (if probeOk(accessToken) then [] else [Refresh(refreshToken)])
  }

  /** The bearer token the send uses as written: the stored one if the
      probe accepts it, else whatever `getNewAccessToken` returned, the
      refresh's error payload or the failed write's message included. */
  function Bearer(accessToken: JsValue, refreshToken: JsValue,
                  probeOk: JsValue -> bool, refresh: JsValue -> RefreshOutcome, saveOk: bool): JsValue
  {
    if probeOk(accessToken) then accessToken
    else match refresh(refreshToken)
      case Refreshed(a, _) => if saveOk then a else Str(SaveError)
      case RefreshFailed(p) => p
  }

  /** At most one refresh, and one exactly when the probe fails. */
  lemma OneRefreshAtMost(accessToken: JsValue, refreshToken: JsValue, probeOk: JsValue -> bool)
    ensures var calls := TokenCalls(accessToken, refreshToken, probeOk);
      && calls[0] == Probe(accessToken)
      && (probeOk(accessToken) ==> forall i :: 0 <= i < |calls| ==> !calls[i].Refresh?)
      && (!probeOk(accessToken) ==> |calls| == 2 && calls[1] == Refresh(refreshToken))
  {
  }

  /** As written, a failed refresh does not stop the send: its error
      payload becomes the bearer token. */
  lemma RefreshFailureBecomesBearer(accessToken: JsValue, refreshToken: JsValue,
                                    probeOk: JsValue -> bool, refresh: JsValue -> RefreshOutcome, saveOk: bool)
    requires !probeOk(accessToken) && refresh(refreshToken).RefreshFailed?
    ensures Bearer(accessToken, refreshToken, probeOk, refresh, saveOk) == refresh(refreshToken).payload
  {
  }

  /** As written, a failed write of the renewed tokens does not stop the
      send either: the write's error message becomes the bearer token. */
  lemma SaveFailureBecomesBearer(accessToken: JsValue, refreshToken: JsValue,
                                 probeOk: JsValue -> bool, refresh: JsValue -> RefreshOutcome)
    requires !probeOk(accessToken) && refresh(refreshToken).Refreshed?
    ensures Bearer(accessToken, refreshToken, probeOk, refresh, false) == Str(SaveError)
    ensures Bearer(accessToken, refreshToken, probeOk, refresh, true) == refresh(refreshToken).accessToken
  {
  }

  /** The part of `sendEmailWithGraph` after the token is settled: build the
      attachments and the payload, then send with `bearer`. */
  method Deliver(data: EmailData, bearer: JsValue, send: (JsValue, Message) -> SendOutcome)
    returns (r: SendResult, calls: seq<ProviderCall>)
    ensures Attachments(data).Err? ==> r == Failed(Str(TypeError)) && calls == []
    ensures Attachments(data).Ok? ==>
      var m := BuildMessage(data, Attachments(data).value);
      && calls == [Send(bearer, m)]
      && r == match send(bearer, m) case Sent(status) => Delivered(m, status) case SendFailed(p) => Failed(p)
  {
    var attachments := Attachments(data);
    if attachments.Err? {
      return Failed(Str(TypeError)), [];
    }
    var m := BuildMessage(data, attachments.value);
    calls := [Send(bearer, m)];
    match send(bearer, m)
    case Sent(status) => r := Delivered(m, status);
    case SendFailed(p) => r := Failed(p);
  }

  /** The `default` token document and the operations that read and write it. */
  class TokenStore {
    var doc: Option<TokenRecord>

    constructor(initial: Option<TokenRecord>)
      ensures doc == initial
    {
      doc := initial;
    }

    /** `getNewAccessToken({ refresh_token })`: ask for new tokens, then
        store them in the current record and return the new access token;
        any failure is returned instead of thrown. `saveOk` says whether
        `saveTokens` manages to write the document. */
    method GetNewAccessToken(refreshToken: JsValue, refresh: JsValue -> RefreshOutcome, saveOk: bool)
      returns (r: JsValue)
      modifies this
      ensures refresh(refreshToken).RefreshFailed? ==> r == refresh(refreshToken).payload && doc == old(doc)
      ensures refresh(refreshToken).Refreshed? && old(doc).None? ==> r == Str(ReadError) && doc == old(doc)
      ensures refresh(refreshToken).Refreshed? && old(doc).Some? && !saveOk ==>
        r == Str(SaveError) && doc == old(doc)
      ensures refresh(refreshToken).Refreshed? && old(doc).Some? && saveOk ==>
        && r == refresh(refreshToken).accessToken
        && doc == Some(WithNewTokens(old(doc).value, refresh(refreshToken).accessToken, refresh(refreshToken).refreshToken))
    {
      match refresh(refreshToken)
      case RefreshFailed(p) =>
        return p;
      case Refreshed(accessToken, newRefreshToken) =>
        if doc.None? {
          return Str(ReadError);
        }
        var current := doc.value;
        current := current["access_token" := accessToken];
        current := current["refresh_token" := newRefreshToken];
        if !saveOk {
          return Str(SaveError);
        }
        doc := Some(current);
        return accessToken;
    }

    /** `sendEmailWithGraph({ emailData })` as written. */
    method SendEmailWithGraph(data: EmailData, probeOk: JsValue -> bool, refresh: JsValue -> RefreshOutcome,
                              saveOk: bool, send: (JsValue, Message) -> SendOutcome)
      returns (r: SendResult, calls: seq<ProviderCall>)
      modifies this
      ensures old(doc).None? ==> r == Failed(Str(ReadError)) && calls == [] && doc == old(doc)
      ensures old(doc).Some? && !Truthy(Field(old(doc).value, "email")) ==>
        r == Failed(Str(NoEmailError)) && calls == [] && doc == old(doc)
      ensures old(doc).Some? && Truthy(Field(old(doc).value, "email")) ==>
        var at := Field(old(doc).value, "access_token");
        var rt := Field(old(doc).value, "refresh_token");
        var bearer := Bearer(at, rt, probeOk, refresh, saveOk);
        && (probeOk(at) || refresh(rt).RefreshFailed? || !saveOk ==> doc == old(doc))
        && (!probeOk(at) && refresh(rt).Refreshed? && saveOk ==>
              doc == Some(WithNewTokens(old(doc).value, refresh(rt).accessToken, refresh(rt).refreshToken)))
        && (Attachments(data).Err? ==> r == Failed(Str(TypeError)) && calls == TokenCalls(at, rt, probeOk))
        && (Attachments(data).Ok? ==>
              var m := BuildMessage(data, Attachments(data).value);
              && calls == TokenCalls(at, rt, probeOk) + [Send(bearer, m)]
              && r == match send(bearer, m) case Sent(status) => Delivered(m, status) case SendFailed(p) => Failed(p))
    {
      if doc.None? {
        return Failed(Str(ReadError)), [];
      }
      var record := doc.value;
      var accessToken := Field(record, "access_token");
      var refreshToken := Field(record, "refresh_token");
      if !Truthy(Field(record, "email")) {
        return Failed(Str(NoEmailError)), [];
      }
      calls := [Probe(accessToken)];
      if !probeOk(accessToken) {
        calls := calls + [Refresh(refreshToken)];
        var newAccessToken := GetNewAccessToken(refreshToken, refresh, saveOk);
        accessToken := newAccessToken;
      }
      var sent;
      r, sent := Deliver(data, accessToken, send);
      calls := calls + sent;
    }

    /** The send with the evident intent: a failed refresh ends the attempt
        with its error payload, and a failed write of the renewed tokens with
        the write's message, instead of sending with either. */
    method SendEmailWithGraphGuarded(data: EmailData, probeOk: JsValue -> bool, refresh: JsValue -> RefreshOutcome,
                                     saveOk: bool, send: (JsValue, Message) -> SendOutcome)
      returns (r: SendResult, calls: seq<ProviderCall>)
      modifies this
      ensures old(doc).None? ==> r == Failed(Str(ReadError)) && calls == [] && doc == old(doc)
      ensures old(doc).Some? && !Truthy(Field(old(doc).value, "email")) ==>
        r == Failed(Str(NoEmailError)) && calls == [] && doc == old(doc)
      ensures old(doc).Some? && Truthy(Field(old(doc).value, "email")) ==>
        var at := Field(old(doc).value, "access_token");
        var rt := Field(old(doc).value, "refresh_token");
        && (!probeOk(at) && refresh(rt).RefreshFailed? ==>
              r == Failed(refresh(rt).payload) && calls == TokenCalls(at, rt, probeOk) && doc == old(doc))
        && (!probeOk(at) && refresh(rt).Refreshed? && !saveOk ==>
              r == Failed(Str(SaveError)) && calls == TokenCalls(at, rt, probeOk) && doc == old(doc))
        && (forall i :: 0 <= i < |calls| && calls[i].Send? ==>
              (probeOk(at) && calls[i].bearer == at) ||
              (refresh(rt).Refreshed? && saveOk && calls[i].bearer == refresh(rt).accessToken))
        && (probeOk(at) ==> doc == old(doc))
        && (!probeOk(at) && refresh(rt).Refreshed? && saveOk ==>
              doc == Some(WithNewTokens(old(doc).value, refresh(rt).accessToken, refresh(rt).refreshToken)))
        && (probeOk(at) || (refresh(rt).Refreshed? && saveOk) ==>
              var bearer := if probeOk(at) then at else refresh(rt).accessToken;
              && (Attachments(data).Err? ==> r == Failed(Str(TypeError)) && calls == TokenCalls(at, rt, probeOk))
              && (Attachments(data).Ok? ==>
                    var m := BuildMessage(data, Attachments(data).value);
                    && calls == TokenCalls(at, rt, probeOk) + [Send(bearer, m)]
                    && r == match send(bearer, m) case Sent(status) => Delivered(m, status) case SendFailed(p) => Failed(p)))
    {
      if doc.None? {
        return Failed(Str(ReadError)), [];
      }
      var record := doc.value;
      var accessToken := Field(record, "access_token");
      var refreshToken := Field(record, "refresh_token");
      if !Truthy(Field(record, "email")) {
        return Failed(Str(NoEmailError)), [];
      }
      calls := [Probe(accessToken)];
      if !probeOk(accessToken) {
        calls := calls + [Refresh(refreshToken)];
        if refresh(refreshToken).RefreshFailed? {
          return Failed(refresh(refreshToken).payload), calls;
        }
        var newAccessToken := GetNewAccessToken(refreshToken, refresh, saveOk);
        if !saveOk {
          return Failed(newAccessToken), calls;
        }
        accessToken := newAccessToken;
      }
      var sent;
      r, sent := Deliver(data, accessToken, send);
      calls := calls + sent;
    }

    /** `exchangeCodeForTokens({ code })`: trade the code for tokens, read
        the profile with the new access token, store the merged record and
        return the tokens with the profile's e-mail. `profile` is the `/me`
        answer for an access token, None when that request fails; `saveOk`
        says whether `saveTokens` manages to write the record. */
    method ExchangeCodeForTokens(outcome: ExchangeOutcome, profile: JsValue -> Option<UserProfile>, saveOk: bool)
      returns (r: Result<Session>)
      modifies this
      ensures outcome.ExchangeFailed? ==>
        r == Err(ExchangeErrorText(outcome.errorDescription, outcome.message)) && doc == old(doc)
      ensures outcome.Exchanged? && profile(outcome.accessToken).None? ==>
        r == Err(ProfileError) && doc == old(doc)
      ensures outcome.Exchanged? && profile(outcome.accessToken).Some? && !saveOk ==>
        r == Err(SaveError) && doc == old(doc)
      ensures outcome.Exchanged? && profile(outcome.accessToken).Some? && saveOk ==>
        var p := profile(outcome.accessToken).value;
        && doc == Some(ExchangeRecord(outcome.accessToken, outcome.refreshToken, outcome.expiresIn, p))
        && r == Ok(Session(outcome.accessToken, outcome.refreshToken, outcome.expiresIn, ProfileEmail(p)))
      ensures r.Ok? ==> doc.Some? && Field(doc.value, "email") == r.value.email
    {
      match outcome
      case ExchangeFailed(description, message) =>
        return Err(ExchangeErrorText(description, message));
      case Exchanged(accessToken, refreshToken, expiresIn) =>
        match profile(accessToken)
        case None =>
          // The profile error's message is rethrown unchanged.
          return Err(ExchangeErrorText(None, ProfileError));
        case Some(p) =>
          var record := ExchangeRecord(accessToken, refreshToken, expiresIn, p);
          if !saveOk {
            // The write's message is rethrown unchanged.
            return Err(ExchangeErrorText(None, SaveError));
          }
          doc := Some(record);
          return Ok(Session(accessToken, refreshToken, expiresIn, ProfileEmail(p)));
    }
  }
}
