/** The document notification service: the sweep that splits the dated
    documents into overdue and upcoming ones and notifies every one of them,
    and the resolution of who is contacted, on which channel, for one
    document. There is no history: each sweep notifies again. */
module NotificacaoDocumentos {
  import opened Texto
  import opened Pessoas
  import opened Documentos
  import opened Canais
  import opened ServicoEmail

  // ---------------------------------------------------------------------------
  // The message

  /** The subject of every message about the document `nome`. */
  function AssuntoAlerta(nome: string): string {
    "Alerta: Documento '" + nome + "' vencido ou próximo do vencimento"
  }

  /** The state the body reports. */
  function Situacao(vencido: bool): (r: string)
    ensures |r| == if vencido then 7 else 21
  {
    if vencido then "vencido" else "próximo do vencimento"
  }

  /** The fixed pieces of the body around the name, the entity and the state. */
  const CORPO_INICIO := "Prezado(a),\n\nO documento '"
  const CORPO_ENTIDADE := "' relacionado a '"
  const CORPO_ESTADO := "' está "
  const CORPO_FIM := ".\n\nPor favor, regularize o quanto antes.\nSistema Gestão Agrícola."

  /** The plain-text body, without the due date it also prints. */
  function CorpoAlerta(nome: string, entidade: string, vencido: bool): (r: string)
    ensures |r| == 115 + |nome| + |entidade| + |Situacao(vencido)|
  {
    CORPO_INICIO + nome + CORPO_ENTIDADE + entidade + CORPO_ESTADO + Situacao(vencido) + CORPO_FIM
  }

  /** The body names the document, then its entity, then its state, each at
      a place fixed by the lengths of what comes before it. */
  lemma CorpoAlertaCampos(nome: string, entidade: string, vencido: bool)
    ensures var r := CorpoAlerta(nome, entidade, vencido);
            var i := |CORPO_INICIO|;
            var j := i + |nome| + |CORPO_ENTIDADE|;
            var k := j + |entidade| + |CORPO_ESTADO|;
            k + |Situacao(vencido)| <= |r|
            && r[i..i + |nome|] == nome
            && r[j..j + |entidade|] == entidade
            && r[k..k + |Situacao(vencido)|] == Situacao(vencido)
  {
    var a := CORPO_INICIO + nome;
    var b := a + CORPO_ENTIDADE + entidade;
    var c := b + CORPO_ESTADO + Situacao(vencido);
    assert CorpoAlerta(nome, entidade, vencido) == c + CORPO_FIM;
    assert c[..|b| + |CORPO_ESTADO|] == b + CORPO_ESTADO;
    assert b[..|a| + |CORPO_ENTIDADE|] == a + CORPO_ENTIDADE;
  }

  /** The body tells an overdue document from one that is only close to its
      due date. */
  lemma CorpoDistingueSituacao(nome: string, entidade: string, v1: bool, v2: bool)
    requires CorpoAlerta(nome, entidade, v1) == CorpoAlerta(nome, entidade, v2)
    ensures v1 == v2
  {
  }

  // ---------------------------------------------------------------------------
  // Who is contacted

  /** One WhatsApp message per number, in order. */
  function MensagensWhatsapp(numeros: seq<string>, corpo: string): (r: seq<Pedido>)
    ensures |r| == |numeros|
  {
    if numeros == [] then []
    else MensagensWhatsapp(numeros[..|numeros| - 1], corpo) + [Whatsapp(numeros[|numeros| - 1], corpo)]
  }

  lemma {:induction false} MensagensWhatsappMembros(numeros: seq<string>, corpo: string, p: Pedido)
    ensures p in MensagensWhatsapp(numeros, corpo) <==> p.Whatsapp? && p.numero in numeros && p.mensagem == corpo
  {
    if numeros != [] {
      var inicio := numeros[..|numeros| - 1];
      MensagensWhatsappMembros(inicio, corpo, p);
      assert numeros == inicio + [numeros[|numeros| - 1]];
    }
  }

  /** The linked person's e-mail: sent when the person has an address and
      wants e-mail. */
  function EmailPessoa(config: ConfigEmail, pessoa: Option<Pessoa>, assunto: string, corpo: string): seq<Pedido> {
    if pessoa.Some? && Preenchido(pessoa.value.email) && pessoa.value.notificarEmail
    then PedidosEmail(config, [pessoa.value.email.value], assunto, corpo) else []
  }

  /** The linked person's WhatsApp message: sent when the person wants it and
      has a number. */
  function WhatsappPessoa(pessoa: Option<Pessoa>, corpo: string): seq<Pedido> {
    if pessoa.Some? && pessoa.value.notificarWhatsapp && Preenchido(pessoa.value.whatsapp)
    then [Whatsapp(pessoa.value.whatsapp.value, corpo)] else []
  }

  /** Everything `notificar_responsaveis` hands to the channels, in order:
      the document's e-mails as one batch, its WhatsApp numbers one by one
      when its flag is set, then the linked person's e-mail and WhatsApp. */
  function PlanoNotificacao(config: ConfigEmail, emails: seq<string>, notificarWhatsapp: bool,
                            whatsapps: seq<string>, pessoa: Option<Pessoa>,
                            assunto: string, corpo: string): seq<Pedido>
  {
    (if emails != [] then PedidosEmail(config, emails, assunto, corpo) else [])
    + (if notificarWhatsapp then MensagensWhatsapp(whatsapps, corpo) else [])
    + EmailPessoa(config, pessoa, assunto, corpo)
    + WhatsappPessoa(pessoa, corpo)
  }

  /** What the messages about one document depend on, as read from it on
      day `hoje`. */
  datatype Ficha = Ficha(
    nome: string,
    entidade: string,
    vencido: bool,
    emails: seq<string>,
    notificarWhatsapp: bool,
    whatsapps: seq<string>,
    pessoa: Option<Pessoa>)

  function FichaDe(d: Documento, hoje: int): Ficha
    reads d
  {
    Ficha(d.nome, d.NomeEntidade(), d.EstaVencido(hoje), d.EmailsNotificacao(),
          d.notificarWhatsapp, d.WhatsappsNotificacao(), d.pessoa)
  }

  /** The plan for one document. */
  function Plano(config: ConfigEmail, f: Ficha): seq<Pedido> {
    PlanoNotificacao(config, f.emails, f.notificarWhatsapp, f.whatsapps, f.pessoa,
                     AssuntoAlerta(f.nome), CorpoAlerta(f.nome, f.entidade, f.vencido))
  }

  /** A WhatsApp message goes to a number exactly when it is one of the
      document's numbers and the document's flag is set, or it is the linked
      person's number and the person's flag is set; it always carries the body. */
  lemma WhatsappDestinatarios(config: ConfigEmail, emails: seq<string>, notificarWhatsapp: bool,
                              whatsapps: seq<string>, pessoa: Option<Pessoa>,
                              assunto: string, corpo: string, numero: string, mensagem: string)
    ensures Whatsapp(numero, mensagem) in PlanoNotificacao(config, emails, notificarWhatsapp, whatsapps, pessoa, assunto, corpo)
            <==> mensagem == corpo
                 && ((notificarWhatsapp && numero in whatsapps)
                     || (pessoa.Some? && pessoa.value.notificarWhatsapp && Preenchido(pessoa.value.whatsapp)
                         && pessoa.value.whatsapp.value == numero))
  {
    MensagensWhatsappMembros(whatsapps, corpo, Whatsapp(numero, mensagem));
  }

  /** An e-mail goes out only with complete settings, with the alert's
      subject and body, either as the document's non-empty list in one batch
      or to the linked person alone when the person has an address and
      wants e-mail. */
  lemma EmailDestinatarios(config: ConfigEmail, emails: seq<string>, notificarWhatsapp: bool,
                           whatsapps: seq<string>, pessoa: Option<Pessoa>,
                           assunto: string, corpo: string, para: seq<string>, a: string, c: string)
    ensures Email(para, a, c) in PlanoNotificacao(config, emails, notificarWhatsapp, whatsapps, pessoa, assunto, corpo)
            <==> ConfigCompleta(config) && a == assunto && c == corpo
                 && ((para == emails && emails != [])
                     || (pessoa.Some? && Preenchido(pessoa.value.email) && pessoa.value.notificarEmail
                         && para == [pessoa.value.email.value]))
  {
    MensagensWhatsappMembros(whatsapps, corpo, Email(para, a, c));
  }

  /** How many messages one document causes: the person's address is used
      even when the document's list already holds it. */
  lemma PlanoTamanho(config: ConfigEmail, emails: seq<string>, notificarWhatsapp: bool,
                     whatsapps: seq<string>, pessoa: Option<Pessoa>, assunto: string, corpo: string)
    ensures |PlanoNotificacao(config, emails, notificarWhatsapp, whatsapps, pessoa, assunto, corpo)|
            == (if emails != [] && ConfigCompleta(config) then 1 else 0)
               + (if notificarWhatsapp then |whatsapps| else 0)
               + (if pessoa.Some? && Preenchido(pessoa.value.email) && pessoa.value.notificarEmail
                     && ConfigCompleta(config) then 1 else 0)
               + (if pessoa.Some? && pessoa.value.notificarWhatsapp && Preenchido(pessoa.value.whatsapp)
                  then 1 else 0)
  {
  }

  lemma Associar<T>(a: seq<T>, b: seq<T>, c: seq<T>, d: seq<T>, e: seq<T>)
    ensures a + b + c + d + e == a + (b + c + d + e)
  {
    Reagrupar(a, b, c);
    Reagrupar(a, b + c, d);
    Reagrupar(a, b + c + d, e);
  }

  /** One more send adds its request to the log's requests. */
  lemma Anexar(log: seq<Envio>, p: Pedido, entregue: bool)
    ensures Pedidos(log + [Envio(p, entregue)]) == Pedidos(log) + [p]
  {
    PedidosConcat(log, [Envio(p, entregue)]);
  }

  /** The document's WhatsApp numbers, one message each. */
  method EnviarWhatsapps(canal: Transporte, numeros: seq<string>, corpo: string)
    modifies canal
    ensures |old(canal.envios)| <= |canal.envios| && canal.envios[..|old(canal.envios)|] == old(canal.envios)
    ensures Pedidos(canal.envios) == Pedidos(old(canal.envios)) + MensagensWhatsapp(numeros, corpo)
  {
    ghost var antes := Pedidos(canal.envios);
    var i := 0;
    while i < |numeros|
      invariant 0 <= i <= |numeros|
      invariant |old(canal.envios)| <= |canal.envios| && canal.envios[..|old(canal.envios)|] == old(canal.envios)
      invariant Pedidos(canal.envios) == antes + MensagensWhatsapp(numeros[..i], corpo)
    {
      ghost var meio := canal.envios;
      var ok := canal.EnviarWhatsapp(numeros[i], corpo);
      Anexar(meio, Whatsapp(numeros[i], corpo), ok);
      assert numeros[..i + 1][..i] == numeros[..i];
      i := i + 1;
    }
    assert numeros[..i] == numeros;
  }

  /** The linked person's e-mail, then WhatsApp message. */
  method NotificarPessoa(canal: Transporte, config: ConfigEmail, pessoa: Option<Pessoa>, assunto: string, corpo: string)
    modifies canal
    ensures |old(canal.envios)| <= |canal.envios| && canal.envios[..|old(canal.envios)|] == old(canal.envios)
    ensures Pedidos(canal.envios)
            == Pedidos(old(canal.envios)) + EmailPessoa(config, pessoa, assunto, corpo) + WhatsappPessoa(pessoa, corpo)
  {
    if pessoa.Some? && Preenchido(pessoa.value.email) && pessoa.value.notificarEmail {
      var _ := EnviarEmail(canal, config, [pessoa.value.email.value], assunto, corpo);
    }
    assert Pedidos(canal.envios) == Pedidos(old(canal.envios)) + EmailPessoa(config, pessoa, assunto, corpo);
    if pessoa.Some? && pessoa.value.notificarWhatsapp && Preenchido(pessoa.value.whatsapp) {
      ghost var meio := canal.envios;
      var ok := canal.EnviarWhatsapp(pessoa.value.whatsapp.value, corpo);
      Anexar(meio, Whatsapp(pessoa.value.whatsapp.value, corpo), ok);
    }
  }

  /** `notificar_responsaveis(documento)`: each send in its own try block, so
      a failing number does not stop the following ones. */
  method NotificarResponsaveis(canal: Transporte, config: ConfigEmail, documento: Documento, hoje: int)
    modifies canal
    ensures |old(canal.envios)| <= |canal.envios| && canal.envios[..|old(canal.envios)|] == old(canal.envios)
    ensures Pedidos(canal.envios) == Pedidos(old(canal.envios)) + Plano(config, old(FichaDe(documento, hoje)))
  {
    var entidadeNome := documento.NomeEntidade();
    var assunto := AssuntoAlerta(documento.nome);
    var corpo := CorpoAlerta(documento.nome, entidadeNome, documento.EstaVencido(hoje));
    var emails := documento.EmailsNotificacao();
    var whatsapps := documento.WhatsappsNotificacao();
    ghost var antes := Pedidos(canal.envios);
    ghost var log0 := canal.envios;

    if emails != [] {
      var _ := EnviarEmail(canal, config, emails, assunto, corpo);
    }
    ghost var log1 := canal.envios;
    ghost var parte1 := if emails != [] then PedidosEmail(config, emails, assunto, corpo) else [];
    assert Pedidos(canal.envios) == antes + parte1;

    if documento.notificarWhatsapp {
      EnviarWhatsapps(canal, whatsapps, corpo);
    }
    Prolonga(log0, log1, canal.envios);
    ghost var log2 := canal.envios;
    ghost var parte2 := if documento.notificarWhatsapp then MensagensWhatsapp(whatsapps, corpo) else [];
    assert Pedidos(canal.envios) == antes + parte1 + parte2;

    NotificarPessoa(canal, config, documento.pessoa, assunto, corpo);
    Prolonga(log0, log2, canal.envios);
    Associar(antes, parte1, parte2, EmailPessoa(config, documento.pessoa, assunto, corpo),
             WhatsappPessoa(documento.pessoa, corpo));
  }

  // ---------------------------------------------------------------------------
  // verificar_e_enviar_notificacoes

  /** The documents as read on day `hoje`, in order. */
  function Fichas(docs: seq<Documento>, hoje: int): (r: seq<Ficha>)
    reads docs
    ensures |r| == |docs|
  {
    if docs == [] then [] else Fichas(docs[..|docs| - 1], hoje) + [FichaDe(docs[|docs| - 1], hoje)]
  }

  lemma {:induction false} FichasIndice(docs: seq<Documento>, hoje: int, i: nat)
    requires i < |docs|
    ensures Fichas(docs, hoje)[i] == FichaDe(docs[i], hoje)
  {
    if i < |docs| - 1 {
      FichasIndice(docs[..|docs| - 1], hoje, i);
    }
  }

  lemma FichasPontos(docs: seq<Documento>, hoje: int)
    ensures forall i :: 0 <= i < |docs| ==> Fichas(docs, hoje)[i] == FichaDe(docs[i], hoje)
  {
    forall i | 0 <= i < |docs|
      ensures Fichas(docs, hoje)[i] == FichaDe(docs[i], hoje)
    {
      FichasIndice(docs, hoje, i);
    }
  }

  /** The plans of a list of documents, one after the other. */
  function PlanoVarredura(config: ConfigEmail, fichas: seq<Ficha>): seq<Pedido> {
    if fichas == [] then []
    else PlanoVarredura(config, fichas[..|fichas| - 1]) + Plano(config, fichas[|fichas| - 1])
  }

  lemma {:induction false} PlanoVarreduraConcat(config: ConfigEmail, a: seq<Ficha>, b: seq<Ficha>)
    ensures PlanoVarredura(config, a + b) == PlanoVarredura(config, a) + PlanoVarredura(config, b)
  {
    if b == [] {
      assert a + b == a;
    } else {
      var c := b[..|b| - 1];
      assert (a + b)[..|a + b| - 1] == a + c;
      PlanoVarreduraConcat(config, a, c);
      Reagrupar(PlanoVarredura(config, a), PlanoVarredura(config, c), Plano(config, b[|b| - 1]));
    }
  }

  /** Every listed document gets its whole plan, between the plans of the
      documents before it and those after it: nothing is skipped and nothing
      remembers an earlier sweep. */
  lemma PlanoVarreduraFatia(config: ConfigEmail, fichas: seq<Ficha>, i: nat)
    requires i < |fichas|
    ensures PlanoVarredura(config, fichas)
            == PlanoVarredura(config, fichas[..i]) + Plano(config, fichas[i]) + PlanoVarredura(config, fichas[i + 1..])
  {
    assert fichas == fichas[..i] + [fichas[i]] + fichas[i + 1..];
    PlanoVarreduraConcat(config, fichas[..i] + [fichas[i]], fichas[i + 1..]);
    PlanoVarreduraConcat(config, fichas[..i], [fichas[i]]);
    assert PlanoVarredura(config, [fichas[i]]) == Plano(config, fichas[i]) by {
      assert [fichas[i]][..0] == [];
    }
  }

  lemma PlanoVarreduraAnexar(config: ConfigEmail, fichas: seq<Ficha>, j: nat)
    requires j < |fichas|
    ensures PlanoVarredura(config, fichas[..j + 1]) == PlanoVarredura(config, fichas[..j]) + Plano(config, fichas[j])
  {
    assert fichas[..j + 1][..j] == fichas[..j];
  }

  /** One more document's plan extends the sweep's plan by it. */
  lemma PassoVarredura(config: ConfigEmail, fichas: seq<Ficha>, j: nat, antes: seq<Pedido>, log: seq<Pedido>)
    requires j < |fichas|
    requires log == antes + PlanoVarredura(config, fichas[..j])
    ensures log + Plano(config, fichas[j]) == antes + PlanoVarredura(config, fichas[..j + 1])
  {
    PlanoVarreduraAnexar(config, fichas, j);
    Reagrupar(antes, PlanoVarredura(config, fichas[..j]), Plano(config, fichas[j]));
  }

  /** One document's notification keeps the sweep's log and plan invariant. */
  lemma PassoNotificar(config: ConfigEmail, fichas: seq<Ficha>, j: nat, antes: seq<Pedido>,
                       inicio: seq<Envio>, log: seq<Envio>, novo: seq<Envio>)
    requires j < |fichas|
    requires |inicio| <= |log| && log[..|inicio|] == inicio
    requires Pedidos(log) == antes + PlanoVarredura(config, fichas[..j])
    requires |log| <= |novo| && novo[..|log|] == log
    requires Pedidos(novo) == Pedidos(log) + Plano(config, fichas[j])
    ensures |inicio| <= |novo| && novo[..|inicio|] == inicio
    ensures Pedidos(novo) == antes + PlanoVarredura(config, fichas[..j + 1])
  {
    Prolonga(inicio, log, novo);
    PassoVarredura(config, fichas, j, antes, Pedidos(log));
  }

  /** The dispatch loop: every listed document is notified, in order. */
  method NotificarTodos(canal: Transporte, config: ConfigEmail, todos: seq<Documento>, hoje: int)
    modifies canal
    ensures |old(canal.envios)| <= |canal.envios| && canal.envios[..|old(canal.envios)|] == old(canal.envios)
    ensures Pedidos(canal.envios) == Pedidos(old(canal.envios)) + PlanoVarredura(config, old(Fichas(todos, hoje)))
  {
    ghost var fichas := Fichas(todos, hoje);
    ghost var antes := Pedidos(canal.envios);
    ghost var inicio := canal.envios;
    var j := 0;
    while j < |todos|
      invariant 0 <= j <= |todos|
      invariant Fichas(todos, hoje) == fichas
      invariant |inicio| <= |canal.envios| && canal.envios[..|inicio|] == inicio
      invariant Pedidos(canal.envios) == antes + PlanoVarredura(config, fichas[..j])
    {
      FichasIndice(todos, hoje, j);
      ghost var log := canal.envios;
      NotificarResponsaveis(canal, config, todos[j], hoje);
      PassoNotificar(config, fichas, j, antes, inicio, log, canal.envios);
      j := j + 1;
    }
    assert fichas[..j] == fichas;
  }

  /** The documents one sweep notifies, in order: the overdue ones, then
      the upcoming ones. */
  function Varredura(docs: seq<Documento>, hoje: int): (r: seq<Documento>)
    reads docs
    ensures |r| <= |docs|
  {
    SepararTamanho(docs, hoje);
    Vencidos(docs, hoje) + AVencer(docs, hoje)
  }

  /** `NotificacaoDocumentosService.verificar_e_enviar_notificacoes()`.
      `consulta` is the result of the query for dated documents, `None` when
      it raised; the pair returned is then empty and nothing is sent. */
  method VerificarEEnviarNotificacoes(canal: Transporte, config: ConfigEmail,
                                      consulta: Option<seq<Documento>>, hoje: int)
    returns (vencidos: seq<Documento>, proximos: seq<Documento>)
    modifies canal
    ensures consulta.None? ==> vencidos == [] && proximos == [] && canal.envios == old(canal.envios)
    ensures |old(canal.envios)| <= |canal.envios| && canal.envios[..|old(canal.envios)|] == old(canal.envios)
    ensures consulta.Some? ==> vencidos == old(Vencidos(consulta.value, hoje))
                               && proximos == old(AVencer(consulta.value, hoje))
    ensures consulta.Some? ==>
              Pedidos(canal.envios)
              == Pedidos(old(canal.envios))
                 + PlanoVarredura(config, old(Fichas(Varredura(consulta.value, hoje), hoje)))
  {
    if consulta.None? {
      return [], [];
    }
    var documentos := ComVencimento(consulta.value);
    vencidos, proximos := [], [];
    var i := 0;
    while i < |documentos|
      invariant 0 <= i <= |documentos|
      invariant vencidos == Vencidos(documentos[..i], hoje)
      invariant proximos == AVencer(documentos[..i], hoje)
    {
      var documento := documentos[i];
      assert documentos[..i + 1][..i] == documentos[..i];
      if documento.EstaVencido(hoje) {
        vencidos := vencidos + [documento];
      } else if documento.PrecisaNotificar(hoje) {
        proximos := proximos + [documento];
      }
      i := i + 1;
    }
    assert documentos[..i] == documentos;
    SepararComVencimento(consulta.value, hoje);
    NotificarTodos(canal, config, vencidos + proximos, hoje);
  }
}
