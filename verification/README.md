# Gestão Agro — notification and validation core in Dafny

This project models the core of an agricultural management application. It covers:

- **Debt-maturity notifications.** A `NotificacaoEndividamentoService` sweeps the debts ("endividamentos") that have an active notification setting and are not yet due. It picks the one reminder interval (6 months … 1 day) that equals the number of days left. It skips a reminder that the send history already records as successful. Otherwise it attempts the reminder by e-mail and WhatsApp and appends one record to the history, unless the commit of that record fails and is rolled back. A debt counts 1 exactly when its attempt succeeded, and success requires a delivered message. The history is a `seq` field of the service class.
- **Document deadlines.** A `Documento` has an optional due date, lists of e-mails, WhatsApp numbers and notification offsets stored as JSON text, and setters that overwrite them. Also modelled:
  - the overdue / days-left / needs-notification / entity-name rules;
  - the split into overdue and upcoming documents, with the banners built from it;
  - the grouping of documents by matching offset;
  - the urgency level of the e-mail subject;
  - the recipient resolution that decides which messages go to which address.
- **Validators and helpers:**
  - CPF/CNPJ check digits (the Brazilian mod-11 rule);
  - the CPF/CNPJ display mask;
  - the e-mail pattern;
  - the HTML/control-character sanitiser;
  - the file-extension and required-field checks;
  - the list validators of the two forms;
  - the environment-string-to-boolean helper.

Dates are day numbers, and today's date `hoje` is a parameter. The SMTP session and the Twilio API are one class, `Canais.Transporte`. It keeps a log of every request handed to it, together with the outcome the channel reported, and the model leaves that outcome open. The rendered e-mail and WhatsApp texts of a debt reminder are a parameter (`Redacao`). The reminder receives the period label and the unpaid amount that the model does compute.

Modules, one per source file (helpers in `Texto`):

| module | file | models |
|---|---|---|
| `Texto` | texto.dfy | Python `str.strip`, `lower`, `split`, `join`, `replace`, `int()` and `str()` of integers |
| `Configuracao` | configuracao.dfy | `src/config.py` |
| `Validadores` | validadores.dfy | `src/utils/validators.py` |
| `Pessoas` | pessoas.dfy | `src/models/pessoa.py` |
| `Documentos` | documentos.dfy | `src/models/documento.py` and the document lists of `pessoa.py` |
| `Canais` | canais.dfy | the SMTP session and `src/utils/whatsapp_service.py` |
| `ServicoEmail` | servico_email.dfy | `src/utils/email_service.py` |
| `NotificacaoDocumentos` | notificacao_documentos.dfy | `src/utils/notificacao_documentos_service.py` |
| `Notificacoes` | notificacoes.dfy | `src/utils/notificacoes.py` |
| `NotificacaoEndividamento` | notificacao_endividamento.dfy | `src/utils/notificacao_endividamento_service.py` |
| `FormularioDocumento` | formulario_documento.dfy | `src/forms/documento.py` |
| `FormularioNotificacaoEndividamento` | formulario_notificacao_endividamento.dfy | `src/forms/notificacao_endividamento.py` |

## Model

| member | source | states |
|---|---|---|
| Configuracao.StrToBoolSignificado | src/config.py:14-18 | A set value is true exactly when it is whitespace, then "true", "1", "yes" or "on" in any letter case, then whitespace, with no reference to `strip()`. |
| Configuracao.StrToBoolIgnoraPadrao | src/config.py:18 | For a present value the default has no influence on the result. |
| Configuracao.StrToBoolIgnoraEspacos | src/config.py:18 | Whitespace around the value does not change the result. |
| Configuracao.StrToBoolIgnoraCaixa | src/config.py:18 | Values equal up to letter case give the same result. |
| Configuracao.StrToBoolPalavraCercada | src/config.py:18 | A word surrounded by whitespace is read as its lower-case form alone. |
| Configuracao.StrToBoolExemploVerdadeiro | src/config.py:18 | " TRUE " is true, even with default false. |
| Configuracao.StrToBoolExemploFalso | src/config.py:18 | " off " is false, even with default true. |
| Texto.Strip | src/config.py:18 | The result is no longer than the input and neither starts nor ends with whitespace. |
| Texto.StripIgnoraEspacosEmVolta | src/config.py:18 | Stripping ignores any whitespace added around a text. |
| Texto.MinusculasStrip | src/config.py:18 | Lower-casing and stripping commute. |
| Texto.JuntarDividir | src/models/documento.py:87 | Splitting on a separator and joining the pieces back gives the original text. |
| Texto.DividirJuntar | src/models/documento.py:87 | Joining separator-free pieces and splitting again gives the pieces back. |
| Texto.LimparItens | src/models/documento.py:87 | The strip-and-drop-empties comprehension yields only stripped, non-empty entries and never more than it was given. |
| Texto.LimparItensLimpos | src/models/documento.py:87 | Entries that are already stripped and non-empty pass through unchanged. |
| Texto.LerInteiroIntParaTexto | src/models/documento.py:138 | `int()` reads back every integer written by `str()`. |
| Texto.NatParaTextoInjetivo | src/utils/notificacoes.py:46 | Different counts are written as different digit strings. |
| Validadores.ConfereEmailCorreto | src/utils/validators.py:9 | The decision procedure accepts exactly the texts of the form local-part `@` domain `.` letters: local part non-empty over `[A-Za-z0-9._%+-]`, domain over `[A-Za-z0-9.-]`, at least two letters after the last dot. |
| Validadores.ValidarEmailCorreto | src/utils/validators.py:7-10 | `validate_email` accepts exactly the texts of that form, and also such a text followed by one '\n', because `$` matches before a final newline. |
| Validadores.EmailValidoUmArroba | src/utils/validators.py:7-10 | An accepted address has exactly one '@', and it is not the first character. |
| Validadores.EmailExemploValido | tests/test_validators.py:6 | "test@example.com" is accepted. |
| Validadores.EmailExemplosInvalidos | tests/test_validators.py:10-13 | "invalid-email", "@example.com", "test@" and "" are refused. |
| Validadores.Digitos | src/utils/validators.py:15 | Removing non-digits leaves only digits and never lengthens the text. |
| Validadores.DigitosConcat | src/utils/validators.py:15 | Removing non-digits distributes over concatenation. |
| Validadores.DigitoVerificador | src/utils/validators.py:26-28 | The check digit is below 10. When the remainder is at least 2, adding the digit to the sum gives a multiple of 11; otherwise the digit is 0. |
| Validadores.Completar | src/utils/validators.py:25-38 | Appending the two computed check digits to a base gives a number whose check digits conform. |
| Validadores.DigitosConferemCompletar | src/utils/validators.py:25-38 | A number's check digits conform exactly when it equals its base completed with computed check digits. |
| Validadores.ValidarCpfCompletar | src/utils/validators.py:12-38 | `validate_cpf` holds exactly when the digits are 11, not all equal, and equal the first 9 completed with both CPF check digits (weights 10..2, then 11..2). |
| Validadores.ValidarCnpjCompletar | src/utils/validators.py:40-68 | `validate_cnpj` holds exactly when the digits are 14, not all equal, and equal the first 12 completed with both CNPJ check digits (weights 5,4,3,2,9..2, then 6,5,4,3,2,9..2). |
| Validadores.CompletarCpfValido | src/utils/validators.py:12-38 | Completing any 9-digit base gives a valid CPF unless all nine digits are equal. |
| Validadores.CompletarCnpjValido | src/utils/validators.py:40-68 | Completing any 12-digit base gives a valid CNPJ except for the all-zero base. |
| Validadores.ValidarIgnoraPontuacao | src/utils/validators.py:12-68 | Inserting non-digit characters anywhere changes neither verdict ('111.444.777-35' is judged as '11144477735'). |
| Validadores.ValidarRecusaCurtoOuConstante | src/utils/validators.py:18-51 | Fewer than 11 digits, or all digits equal, is refused by both checks. |
| Validadores.CpfExemploValido | tests/test_validators.py:17 | '11144477735' is a valid CPF. |
| Validadores.CpfExemploErrado | tests/test_validators.py:22 | '12345678901' is refused because its check digits do not conform. |
| Validadores.SemTagSemCasamento | src/utils/validators.py:76 | A text is tag-free exactly when no '<' is followed by a later '>' with only non-'>' characters, at least one, in between. |
| Validadores.RemoverTagsLimpa | src/utils/validators.py:76 | Removing tags leaves a tag-free text made of characters of the input. |
| Validadores.RemoverTagsSemMenor | src/utils/validators.py:76 | A text without '<' is unchanged. |
| Validadores.RemoverTagsTag | src/utils/validators.py:76 | A tag after a '<'-free prefix is removed, and the prefix is kept. |
| Validadores.RemoverTagsEntreTags | tests/test_validators.py:37-38 | A word between an opening and a closing tag comes out alone. |
| Validadores.RemoverControle | src/utils/validators.py:79 | The result has no character in 0x00–0x1f or 0x7f–0x9f and is made of characters of the input. |
| Validadores.RemoverControleSemControle | src/utils/validators.py:79 | A text without control characters is unchanged. |
| Validadores.SemTagRemoverControle | src/utils/validators.py:76-79 | Removing control characters after the tags does not create a new tag. |
| Validadores.Sanitizar | src/utils/validators.py:70-81 | `None` stays `None`; a text gives a text no longer than it. |
| Validadores.SanitizarSeguro | src/utils/validators.py:70-81 | The sanitised text has no tag, no control character and no surrounding whitespace. |
| Validadores.SanitizarTextoLimpo | src/utils/validators.py:70-81 | A text that is already tag-free, control-free and stripped is unchanged. |
| Validadores.SanitizarEntreTags | tests/test_validators.py:37-38 | `<b>word</b>`-shaped input gives the word. |
| Validadores.SanitizarControleFinal | tests/test_validators.py:40-45 | Trailing control characters are dropped; '' gives '' and `None` gives `None`. |
| Validadores.ValidarExtensao | src/utils/validators.py:83-89 | An accepted name contains a '.' whose lower-cased suffix is an allowed extension. |
| Validadores.ValidarExtensaoCorreta | src/utils/validators.py:83-89 | A name is accepted exactly when it has a last '.' and the lower-cased text after it is allowed. |
| Validadores.ValidarExtensaoPonto | src/utils/validators.py:88-89 | `base.ext`, with no '.' in `ext`, is accepted exactly when `ext` lower-cased is allowed. |
| Validadores.ValidarExtensaoSemPonto | src/utils/validators.py:85-88 | A name without '.', the empty name included, is refused. |
| Validadores.CamposFaltando | src/utils/validators.py:108-115 | A field is reported exactly when it is required and is absent from the data or has a falsy value. |
| Validadores.CamposFaltandoConcat | src/utils/validators.py:111-113 | The report keeps the order of the required fields, list by list. |
| Validadores.ValidarCamposObrigatorios | src/utils/validators.py:108-115 | The loop returns exactly the reference report. |
| Pessoas.Total | src/models/pessoa.py:38-46 | A counter is the length of its relation, and 0 exactly when the relation is empty. |
| Pessoas.RemoverPontuacao | src/models/pessoa.py:54 | The result has no '.', '-' or '/'. |
| Pessoas.FormatarCpfCnpj | src/models/pessoa.py:53-59 | 11 cleaned characters give a 14-character mask, 14 give an 18-character mask, and any other length returns the stored value unchanged. |
| Pessoas.MascaraCpfPosicoes | src/models/pessoa.py:56 | The CPF mask is `XXX.XXX.XXX-XX` with the digits in order. |
| Pessoas.MascaraCnpjPosicoes | src/models/pessoa.py:58 | The CNPJ mask is `XX.XXX.XXX/XXXX-XX` with the digits in order. |
| Pessoas.RemoverPontuacaoMascaraCpf | src/models/pessoa.py:54-56 | Removing punctuation from a CPF mask gives back the cleaned value. |
| Pessoas.RemoverPontuacaoMascaraCnpj | src/models/pessoa.py:54-58 | Removing punctuation from a CNPJ mask gives back the cleaned value. |
| Pessoas.FormatarPreservaValor | src/models/pessoa.py:53-59 | Formatting never changes the value without its punctuation. |
| Pessoas.FormatarIdempotente | src/models/pessoa.py:53-59 | Formatting a formatted value changes nothing. |
| Pessoas.FormatarIgnoraPontuacao | src/models/pessoa.py:53-59 | Two values with the same 11 or 14 cleaned characters are formatted alike. |
| Canais.Transporte.EnviarSmtp | src/utils/email_service.py:37-60 | One SMTP session appends exactly one e-mail request, with its reported outcome, to the log. |
| Canais.Transporte.EnviarWhatsapp | src/utils/whatsapp_service.py:9-34 | One call appends exactly one WhatsApp request, with its reported outcome, to the log. |
| Documentos.LerInteiros | src/models/documento.py:138 | The offsets are parsed exactly when every entry is an integer. Then there is one number per entry, and each is that entry's value. |
| Documentos.Documento.constructor | src/models/documento.py:69-77 | A new document has the given fields and no stored lists. |
| Documentos.Documento.DefinirEmails | src/models/documento.py:79-92 | A list is stored as given; a text is split on ',' with each piece stripped and empty pieces dropped; anything else stores []. Only the e-mail field changes, and the getter then returns that list. |
| Documentos.Documento.DefinirWhatsapps | src/models/documento.py:104-117 | As the e-mail setter, with newlines treated as commas first. Only the WhatsApp field changes. |
| Documentos.Documento.DefinirPrazos | src/models/documento.py:129-145 | A list is stored as given; a text is stored as its integers, or as [30] when an entry is not an integer; anything else stores [30]. Only the offsets field changes. |
| Documentos.VencidoSeDiasNegativos | src/models/documento.py:147-160 | Overdue exactly when there are days left to count (a due date exists) and they are negative. |
| Documentos.VenceHoje | tests/test_regras_negocio.py:71-72 | A document due today is not overdue and has 0 days left. |
| Documentos.PrecisaNotificarNaoVencido | src/models/documento.py:147-172 | A document that needs notification is not overdue. |
| Documentos.VencidoNaoNotifica | tests/test_regras_negocio.py:81-86 | An overdue document is not notified even when its negative days left are among its offsets. |
| Documentos.SemPrazosNaoNotifica | tests/test_regras_negocio.py:74-75 | Without offsets a document never needs notification. |
| Documentos.NomeEntidadeSoDaSelecionada | src/models/documento.py:174-186 | The entity name depends only on the relation that `tipo_entidade` selects: two documents of the same kind that agree on that relation have the same name, whatever the other relation holds. |
| Documentos.EmailsDeTextoLimpos | src/models/documento.py:85-88 | E-mails set from a text are stripped, non-empty and comma-free. |
| Documentos.WhatsappsDeTextoLimpos | src/models/documento.py:110-113 | Numbers set from a text are stripped, non-empty, and free of commas and newlines. |
| Documentos.EmailsJuntarLer | src/models/documento.py:85-88 | Clean addresses joined with ',' are read back as the same list. |
| Documentos.WhatsappsJuntarLer | src/models/documento.py:110-113 | Clean numbers joined with ',' or with newlines are read back as the same list. |
| Documentos.EmailsVirgulaEspaco | tests/test_regras_negocio.py:92-94 | "a, b" sets the list [a, b]. |
| Documentos.PrazosJuntarLer | src/models/documento.py:135-139 | Offsets written as a comma-separated text are read back as the same integers. |
| Documentos.PrazosTextoInvalido | src/models/documento.py:137-141 | One entry that is not an integer makes the setter store [30]. |
| Documentos.ComVencimento | src/utils/notificacoes.py:17 | The query keeps only documents that have a due date. |
| Documentos.Vencidos | src/models/pessoa.py:47-49 | The overdue list is no longer than the documents. |
| Documentos.AVencer | src/models/pessoa.py:50-52 | The upcoming list is no longer than the documents. |
| Documentos.VencidosMembros | src/models/pessoa.py:47-49 | A document is in the overdue list exactly when it is one of the documents and is overdue. |
| Documentos.AVencerMembros | src/models/pessoa.py:50-52 | A document is in the upcoming list exactly when it is one of the documents, is not overdue and needs notification. |
| Documentos.VencidosAVencerDisjuntos | src/models/pessoa.py:47-52 | No document is in both lists. |
| Documentos.VencidosSubsequencia | src/models/pessoa.py:47-49 | The overdue list keeps the documents' order. |
| Documentos.AVencerSubsequencia | src/models/pessoa.py:50-52 | The upcoming list keeps the documents' order. |
| Documentos.SepararTamanho | src/utils/notificacoes.py:23-27 | The two lists together are no longer than the documents. |
| Documentos.SepararComVencimento | src/utils/notificacoes.py:17-27 | Dropping the undated documents first does not change either list. |
| ServicoEmail.PedidosEmail | src/utils/email_service.py:20-35 | At most one message. There is one exactly when there are recipients and the server, port, sender and password are all set, and it carries the recipients, subject and body. |
| ServicoEmail.EnviarEmail | src/utils/email_service.py:20-60 | Returns false without opening a session when a guard fails. Otherwise it makes exactly one send and returns its outcome. |
| ServicoEmail.ClassificarUrgencia | src/utils/email_service.py:113-122 | URGENTE exactly when at most 3 days are left, ATENÇÃO for 4 to 7, AVISO above 7. |
| ServicoEmail.UrgenciaMonotona | src/utils/email_service.py:113-122 | Fewer days left never give a milder level. |
| ServicoEmail.AssuntoInjetivo | src/utils/email_service.py:113-129 | Two subjects for the same document name are equal only when the days left are equal. |
| ServicoEmail.NiveisDistintos | src/utils/email_service.py:116-122 | The three level words differ in their first two characters. |
| ServicoEmail.AssuntoDeterminaUrgencia | src/utils/email_service.py:113-129 | Equal subjects have the same urgency level. |
| ServicoEmail.Acrescentar | src/utils/email_service.py:221-223 | Appending under key p creates the key if missing, extends only p's list by the document and leaves other keys alone. |
| ServicoEmail.VerificarDocumentosVencendo | src/utils/email_service.py:197-225 | The nested loops build exactly the grouping `Agrupar` of the documents. |
| ServicoEmail.AgruparAnexar | src/utils/email_service.py:212-223 | One more document adds its matches to the grouping and changes nothing else; an undated one adds nothing. |
| ServicoEmail.AgruparComVencimento | src/utils/email_service.py:210-214 | Filtering out undated documents first gives the same grouping. |
| ServicoEmail.AgruparPrazosChaves | src/utils/email_service.py:219-222 | One document's offsets add its days left as a key exactly when that number is among them. |
| ServicoEmail.AgruparPrazosBuscar | src/utils/email_service.py:219-223 | One document is appended under its days left once per occurrence of that offset, and nowhere else. |
| ServicoEmail.AgruparCorreto | src/utils/email_service.py:197-225 | The list under p is the reference group: each dated document with p among its offsets and p days left, in query order, once per occurrence of p. p is a key exactly when that group is non-empty. |
| ServicoEmail.AgrupamentoMembros | src/utils/email_service.py:212-223 | A document is under p exactly when it is one of the documents, has a due date p days away and has p among its offsets; every key maps to a non-empty list. |
| ServicoEmail.ChavesSaoPrazos | src/utils/email_service.py:219-223 | Every key is an offset of some document. |
| ServicoEmail.AgrupadoPrecisaNotificar | src/utils/email_service.py:216-220 | A document grouped under an offset of 0 or more needs notification. |
| ServicoEmail.PrecisaNotificarAgrupado | src/utils/email_service.py:211-222 | For a listed document, both directions: `precisa_notificar` holds exactly when the grouping files the document under some key of 0 or more. |
| ServicoEmail.NegativoAgrupadoSemPrecisarNotificar | src/utils/email_service.py:216-220 | The grouping has no `>= 0` guard: a document due yesterday with -1 among its offsets is grouped under -1 while it is overdue and does not need notification. |
| NotificacaoDocumentos.CorpoAlertaCampos | src/utils/notificacao_documentos_service.py:47-53 | The body holds the document name, then the entity name, then "vencido" or "próximo do vencimento", each at the offset fixed by the lengths of what precedes it. |
| NotificacaoDocumentos.CorpoDistingueSituacao | src/utils/notificacao_documentos_service.py:50 | The body of an overdue document differs from that of an upcoming one. |
| NotificacaoDocumentos.MensagensWhatsapp | src/utils/notificacao_documentos_service.py:71-75 | One message per number. |
| NotificacaoDocumentos.MensagensWhatsappMembros | src/utils/notificacao_documentos_service.py:71-75 | A request is among them exactly when it is a WhatsApp message with the body to one of the numbers. |
| NotificacaoDocumentos.WhatsappDestinatarios | src/utils/notificacao_documentos_service.py:69-96 | A number gets the body exactly when it is in the document's list and the document wants WhatsApp, or when it is the linked person's number and the person wants WhatsApp. |
| NotificacaoDocumentos.EmailDestinatarios | src/utils/notificacao_documentos_service.py:55-90 | An e-mail goes out only with complete mail settings, with the alert's subject and body, to the document's non-empty list or, separately, to the linked person's address when the person wants e-mail. |
| NotificacaoDocumentos.PlanoTamanho | src/utils/notificacao_documentos_service.py:55-96 | Sends per document: one e-mail for a non-empty list with complete settings, one message per number when WhatsApp is on, one e-mail to the person when they want it, and one WhatsApp to the person when they want it. Nothing is deduplicated: the person's address is used even when it is also in the document's list. |
| NotificacaoDocumentos.EnviarWhatsapps | src/utils/notificacao_documentos_service.py:69-75 | Every number is tried, in order, whatever the earlier outcomes. |
| NotificacaoDocumentos.NotificarPessoa | src/utils/notificacao_documentos_service.py:77-96 | The person's e-mail, then their WhatsApp message, each under its own conditions. |
| NotificacaoDocumentos.NotificarResponsaveis | src/utils/notificacao_documentos_service.py:41-96 | The requests made are exactly the document's plan, as read from the document on entry. |
| NotificacaoDocumentos.PlanoVarreduraConcat | src/utils/notificacao_documentos_service.py:34-35 | The plan of two runs of documents is the two plans in a row. |
| NotificacaoDocumentos.PlanoVarreduraFatia | src/utils/notificacao_documentos_service.py:34-35 | Every listed document's whole plan appears between the plans of the documents before and after it. |
| NotificacaoDocumentos.NotificarTodos | src/utils/notificacao_documentos_service.py:34-35 | The dispatch loop makes exactly the plans of all listed documents, in order. |
| NotificacaoDocumentos.Varredura | src/utils/notificacao_documentos_service.py:34 | The notified documents are no more than the documents. |
| NotificacaoDocumentos.VerificarEEnviarNotificacoes | src/utils/notificacao_documentos_service.py:17-39 | Returns the overdue and upcoming lists and notifies the overdue documents, then the upcoming ones, every time. A failed query returns ([], []) and sends nothing. |
| Notificacoes.Alertas | src/utils/notificacoes.py:43-57 | One banner per non-empty list, the overdue one first, each carrying its own count. |
| Notificacoes.ContagemInjetiva | src/utils/notificacoes.py:44-57 | The count can be read back from a banner's text. |
| Notificacoes.AlertasContam | src/utils/notificacoes.py:44-57 | Different counts give different banners. |
| Notificacoes.VerificarDocumentosVencimento | src/utils/notificacoes.py:7-34 | The loop returns exactly the overdue and the upcoming documents of the query; a failed query gives ([], []). |
| Notificacoes.GerarAlertasVencimento | src/utils/notificacoes.py:36-59 | Returns the same pair as the check, and the banners are those for the lengths of the two lists. |
| NotificacaoEndividamento.TiposDistintos | src/utils/notificacao_endividamento_service.py:16-24 | The seven intervals have distinct day counts and distinct labels. |
| NotificacaoEndividamento.TipoPara | src/utils/notificacao_endividamento_service.py:16-51 | The interval for a number of days left, if any, is one whose day count equals it; there is none exactly when no interval has that count. |
| NotificacaoEndividamento.TipoParaUnico | src/utils/notificacao_endividamento_service.py:50-51 | An interval matches the days left exactly when it is the one `TipoPara` finds, so at most one interval matches. |
| NotificacaoEndividamento.PeriodosDosTipos | src/utils/notificacao_endividamento_service.py:114-124 | The seven period labels are "6 meses", "3 meses", "30 dias", "15 dias", "7 dias", "3 dias" and "1 dia". |
| NotificacaoEndividamento.PeriodosDistintos | src/utils/notificacao_endividamento_service.py:114-124 | Different intervals get different period labels. |
| NotificacaoEndividamento.ValorPendenteConcat | src/utils/notificacao_endividamento_service.py:126-129 | The unpaid amount of two runs of installments is the sum of theirs. |
| NotificacaoEndividamento.PagarParcela | src/utils/notificacao_endividamento_service.py:126-129 | Paying one installment lowers the unpaid amount by its value if it was unpaid, and otherwise leaves it alone. |
| NotificacaoEndividamento.ValorPendenteQuitado | src/utils/notificacao_endividamento_service.py:126-129 | With every installment paid the unpaid amount is 0. |
| NotificacaoEndividamento.Decodificar | src/utils/notificacao_endividamento_service.py:74-75 | Decoding fails exactly when the stored text does not decode; otherwise it gives the stored list, or [] when nothing is stored. |
| NotificacaoEndividamento.PrimeiraConfigAtiva | src/utils/notificacao_endividamento_service.py:68-73 | The setting found is an active one of that debt; none is found exactly when the debt has no active setting. |
| NotificacaoEndividamento.Selecao | src/utils/notificacao_endividamento_service.py:33-38 | The swept debts are drawn from the table. |
| NotificacaoEndividamento.SelecaoMembros | src/utils/notificacao_endividamento_service.py:33-38 | A debt is swept exactly when its final due date is after today and it has an active setting. |
| NotificacaoEndividamento.JaFoiEnviadaExiste | src/utils/notificacao_endividamento_service.py:57-64 | A reminder counts as sent exactly when the history holds a successful record with that debt and that label. |
| NotificacaoEndividamento.JaFoiEnviadaAnexar | src/utils/notificacao_endividamento_service.py:57-64 | After one more record, a reminder counts as sent exactly when it did before or the new record is a success for it. |
| NotificacaoEndividamento.FalhaNaoSuprime | src/utils/notificacao_endividamento_service.py:57-64 | A failed record never makes a reminder count as sent. |
| NotificacaoEndividamento.JaFoiEnviadaMonotona | src/utils/notificacao_endividamento_service.py:57-64 | A reminder that counts as sent still does after more records. |
| NotificacaoEndividamento.PreservaUmSucesso | src/utils/notificacao_endividamento_service.py:52-64 | Appending a failure, or a success for a reminder not yet sent, keeps at most one success per (debt, label). |
| NotificacaoEndividamento.TentativaSucesso | src/utils/notificacao_endividamento_service.py:91-93 | The WhatsApp attempt succeeds exactly when every number was tried, in order, and each send succeeded. |
| NotificacaoEndividamento.DisparoSemCanal | src/utils/notificacao_endividamento_service.py:78-93 | Without e-mails, and without WhatsApp either switched on or given numbers, nothing is sent and the attempt fails. |
| NotificacaoEndividamento.DisparoCanais | src/utils/notificacao_endividamento_service.py:81-93 | Any e-mail sent carries the whole list, subject and body, and needs a non-empty list. Any WhatsApp message goes to one of the numbers, with the message, and needs the switch on. |
| NotificacaoEndividamento.EnviarTodos | src/utils/notificacao_endividamento_service.py:91-93 | `all(...)` sends to the numbers in order and stops after the first failure. It is true exactly when every number was sent to successfully. |
| NotificacaoEndividamento.DispararCanais | src/utils/notificacao_endividamento_service.py:78-93 | The e-mail goes out only with addresses and WhatsApp only with the switch and numbers. The result is the e-mail outcome OR the WhatsApp outcome. |
| NotificacaoEndividamento.AcrescimoPreserva | src/utils/notificacao_endividamento_service.py:52-102 | Adding one record for a reminder that is a failure or not yet sent keeps at most one success per key. |
| NotificacaoEndividamento.NotificacaoEndividamentoService.constructor | src/utils/notificacao_endividamento_service.py:26-27 | The service starts with an empty history and the given mail settings. |
| NotificacaoEndividamento.NotificacaoEndividamentoService.RegistrarHistorico | src/utils/notificacao_endividamento_service.py:182-196 | The history gains exactly the given record, or stays as it was when the commit fails and is rolled back. |
| NotificacaoEndividamento.NotificacaoEndividamentoService.EnviarNotificacao | src/utils/notificacao_endividamento_service.py:66-112 | Behaviour by case: (1) Without an active setting it returns false, sends nothing and writes nothing. (2) A list that does not decode sends nothing and writes at most a failure with empty lists and an error text. (3) Otherwise the channels are gated as the source gates them, and the record written, if any, holds the lists and exactly the returned outcome. |
| NotificacaoEndividamento.NotificacaoEndividamentoService.ProcessarEndividamento | src/utils/notificacao_endividamento_service.py:47-55 | The call is one `Etapa` (step). It keeps at most one success per (debt, label) and returns at most 1. When no interval matches, or the matching label already has a success, nothing is sent, nothing is written and 0 is returned. Otherwise the reminder for the matching label is attempted exactly as `_enviar_notificacao` attempts it (`Lembrete`). That covers the no-setting case, the undecodable-list case and the channel case with its exact new log entries, and 1 is returned exactly when that attempt returned true. |
| NotificacaoEndividamento.NotificacaoEndividamentoService.VerificarEEnviarNotificacoes | src/utils/notificacao_endividamento_service.py:29-45 | A failed query returns 0 and changes nothing. Otherwise the swept debts are processed one after the other, in order, each as one `Etapa`, and the total is the sum of their returns. The total is at least the number of new successful records and at most the number of newly delivered messages. Every new record belongs to a swept debt and carries that debt's label for today. When no swept debt has a reminder pending (the same-day rerun), nothing is sent and nothing is written. It keeps at most one success per key, only appends to the history, and adds at most one record and one count per swept debt. |
| NotificacaoEndividamento.RodadaCresce | src/utils/notificacao_endividamento_service.py:39-40 | A sweep only appends to the history and the log, with at most one record and one count per swept debt. |
| NotificacaoEndividamento.RodadaRegistros | src/utils/notificacao_endividamento_service.py:39-40 | Every record a sweep writes has the id of a swept debt and the label of the interval that debt's days left match. |
| NotificacaoEndividamento.RodadaSemPendentes | src/utils/notificacao_endividamento_service.py:39-40 | When no swept debt has a reminder pending, a sweep sends nothing, writes nothing and counts 0. |
| NotificacaoEndividamento.RodadaNaoRepete | src/utils/notificacao_endividamento_service.py:47-55 | A reminder that the history records as sent before the sweep is not sent again: that debt's step changes nothing and counts 0. |
| NotificacaoEndividamento.LembreteEntrega | src/utils/notificacao_endividamento_service.py:78-102 | An attempt that returns true added at least one delivered message to the log. |
| NotificacaoEndividamento.DisparoEntrega | src/utils/notificacao_endividamento_service.py:78-93 | The channels report success only when the e-mail was delivered, or every WhatsApp number of a non-empty list took the message. |
| NotificacaoEndividamento.EtapaEntrega | src/utils/notificacao_endividamento_service.py:47-55 | A debt whose processing returns 1 delivered a message. |
| NotificacaoEndividamento.RodadaEntregas | src/utils/notificacao_endividamento_service.py:39-40 | The sweep's total never exceeds the number of messages it delivered. |
| NotificacaoEndividamento.RodadaSucessos | src/utils/notificacao_endividamento_service.py:39-40 | Every successful record a sweep writes is counted: the total is at least the number of new successful records. |
| FormularioDocumento.PrazosOferecidos | src/forms/documento.py:19-25 | The offered offsets are five positive numbers, strictly decreasing, and include the default offset 30. |
| FormularioDocumento.DividirSequenciasPrefixo | src/forms/documento.py:31 | `re.split(r'[\n,]+')` cuts a separator-free piece off at the next separator. |
| FormularioDocumento.DividirSequenciasJuntar | src/forms/documento.py:31 | Splitting clean entries joined by ',' gives them back. |
| FormularioDocumento.Entradas | src/forms/documento.py:31-41 | Every entry is stripped, non-empty and free of ',' and '\n'. |
| FormularioDocumento.EntradasJuntar | src/forms/documento.py:31-41 | Clean entries joined by ',' are read back as they were. |
| FormularioDocumento.PrimeiraInvalida | src/forms/documento.py:33-35 | The index found is the first entry refused by the check; none exactly when all pass. |
| FormularioDocumento.Validar | src/forms/documento.py:33-45 | Passes exactly when every entry is valid. Otherwise the message names the first invalid entry after the fixed prefix. |
| FormularioDocumento.EmailSimplesCorreto | src/forms/documento.py:32 | An entry matches `^[^@]+@[^@]+\.[^@]+$` exactly when it is a+"@"+b+"."+c with a, b, c non-empty and free of '@'. |
| FormularioDocumento.EmailSimplesPartes | src/forms/documento.py:32 | Every match splits into such parts. |
| FormularioDocumento.PartesEmailSimples | src/forms/documento.py:32 | Every such composition matches. |
| FormularioDocumento.WhatsappEntrada | src/forms/documento.py:42 | On an entry, `^\+\d{10,15}$` holds exactly when it is '+' and 10 to 15 digits; the final-newline case of `$` cannot arise. |
| FormularioDocumento.ValidarEmails | src/forms/documento.py:27-35 | An empty field passes. Otherwise it passes exactly when every entry matches; a failure names the first entry that does not, after "E-mail inválido: ". |
| FormularioDocumento.ValidarWhatsapps | src/forms/documento.py:37-45 | An empty field passes. Otherwise it passes exactly when every entry is '+' and 10 to 15 digits; a failure names the first entry that is not. |
| FormularioNotificacaoEndividamento.EntradasPorLinha | src/forms/notificacao_endividamento.py:25-35 | The entries are stripped, non-empty and newline-free. |
| FormularioNotificacaoEndividamento.EntradasPorLinhaJuntar | src/forms/notificacao_endividamento.py:25-35 | Clean entries written one per line are read back as they were. |
| FormularioNotificacaoEndividamento.ValidarEmailsPorLinha | src/forms/notificacao_endividamento.py:21-29 | An empty field passes. Otherwise it passes exactly when every line matches the application's e-mail pattern; a failure names the first line that does not. |
| FormularioNotificacaoEndividamento.ValidarWhatsappsPorLinha | src/forms/notificacao_endividamento.py:31-39 | An empty field passes. Otherwise it passes exactly when every line is '+' and 10 to 15 digits; a failure names the first line that is not, after "WhatsApp inválido: ". |
| FormularioNotificacaoEndividamento.EmailLinhaAceitoNoDocumento | src/forms/notificacao_endividamento.py:26 | Every address this form accepts is accepted by the document form's looser pattern too. |

## Left out

- Message rendering. Not modelled: HTML bodies, the WhatsApp text of a debt reminder, the dates printed in bodies, currency formatting (`:,.2f`) and the `datetime.now()` stamp. The debt texts are the parameter `Redacao`, which receives the computed period label and unpaid amount.
- The unpaid amount is an integer number of cents; decimal money arithmetic is not modelled.
- The clock: `date.today()` is the parameter `hoje`.
- JSON encoding and decoding. A stored list column is `Guardado` (nothing, a list, or undecodable text). A text that decodes to something other than the expected list is not modelled. The expected list is a list of strings for e-mails and numbers, and a list of integers for the offsets.
- The SMTP session (TLS, login, MIME assembly) and the Twilio client are one abstract transport whose outcome per send is left open. Missing Twilio credentials therefore appear as a failed send; the twilio `Client` constructor raising outside its `try` is not modelled.
- Exceptions in the debt service other than a failing sweep query and an undecodable stored list. The error text is any non-empty string.
- The join in the sweep query is modelled as one entry per debt, in table order. The ORM's handling of a debt with several active settings is not modelled.
- The forms' `field.data` being `None` is taken as the empty field. `DataRequired`, `Length` and the other WTForms field validators are not modelled.
- `\d` is modelled as the ASCII digits only; Python's Unicode digits are not. `lower()` is modelled for ASCII letters only.
- Texto.LerInteiro: Python's `int()` (used on offset texts, `src/models/documento.py:138`) also accepts any Unicode decimal digit; the model reads only ASCII digits. For the text "٣" the source stores the offsets [3], while `Documentos.Documento.DefinirPrazos` stores [30].
- FormularioDocumento.PrazosOferecidos: the labels of the offered offsets ("30 dias antes" …) are kept as constants, with nothing proved about their text.
- `validate_numeric_field` (floating point), `hash_password`/`verify_password` (library calls) and `require_auth` (a pass-through decorator) are not modelled.
- `enviar_email_teste` and `enviar_teste_whatsapp` (manual test sends) are not modelled.
- The body of `formatar_email_notificacao`: only its subject and urgency level are modelled.
- NotificacaoEndividamento.NotificacaoEndividamentoService.VerificarEEnviarNotificacoes: the total is the sum of the per-debt returns. It lies between the number of successful records written and the number of messages delivered, but it is equated with neither. A history commit may fail and be rolled back silently, so a counted success can leave no record. A step may also deliver more than one message, e.g. an e-mail and several WhatsApp messages.
- Defects outside the modelled core:
  - `maintenance.py:13` imports a function that `src/utils/tasks_notificacao.py` does not define.
  - `src/routes/endividamento.py:365, 383, 389` call service methods that do not exist.
  - `src/main.py:192` and `src/routes/test.py:18-20` pass arguments that `formatar_email_notificacao` does not accept.
  - `src/forms/endividamento.py:40` raises a `ValidationError` it never imports.
- HTTP routes, ORM schemas, migrations, caching, scheduling and browser scripts are outside the modelled core.
