/** The outside world the notification code talks to: an SMTP session and the
    Twilio WhatsApp API. Each send is recorded in a log together with its
    outcome, which the model leaves open (either value may come back). */
module Canais {

  /** What was handed to a channel. */
  datatype Pedido =
    | Email(destinatarios: seq<string>, assunto: string, corpo: string)
    | Whatsapp(numero: string, mensagem: string)

  /** One send and whether the channel reported success. */
  datatype Envio = Envio(pedido: Pedido, entregue: bool)

  /** The requests of a log, outcomes dropped. */
  function Pedidos(log: seq<Envio>): (r: seq<Pedido>)
    ensures |r| == |log|
    ensures forall i {:trigger r[i]} :: 0 <= i < |log| ==> r[i] == log[i].pedido
  {
    if log == [] then [] else Pedidos(log[..|log| - 1]) + [log[|log| - 1].pedido]
  }

  lemma {:induction false} PedidosConcat(a: seq<Envio>, b: seq<Envio>)
    ensures Pedidos(a + b) == Pedidos(a) + Pedidos(b)
  {
    if b == [] {
      assert a + b == a;
    } else {
      assert (a + b)[..|a + b| - 1] == a + b[..|b| - 1];
      PedidosConcat(a, b[..|b| - 1]);
    }
  }

  /** A log that extends a log that extends `a` extends `a`. */
  lemma Prolonga(a: seq<Envio>, b: seq<Envio>, c: seq<Envio>)
    requires |a| <= |b| && b[..|a|] == a
    requires |b| <= |c| && c[..|b|] == b
    ensures |a| <= |c| && c[..|a|] == a
  {
    assert c[..|a|] == c[..|b|][..|a|];
  }

  /** The transport behind both channels. */
  class Transporte {
    var envios: seq<Envio>

    constructor ()
      ensures envios == []
    {
      envios := [];
    }

    /** One SMTP session sending one message to all `destinatarios`; true when
        the server accepted it, false when it raised. */
    method EnviarSmtp(destinatarios: seq<string>, assunto: string, corpo: string) returns (entregue: bool)
      modifies this
      ensures envios == old(envios) + [Envio(Email(destinatarios, assunto, corpo), entregue)]
    {
      entregue :| true;
      envios := envios + [Envio(Email(destinatarios, assunto, corpo), entregue)];
    }

    /** `send_whatsapp_message(numero, mensagem)`: true when Twilio accepted it. */
    method EnviarWhatsapp(numero: string, mensagem: string) returns (entregue: bool)
      modifies this
      ensures envios == old(envios) + [Envio(Whatsapp(numero, mensagem), entregue)]
    {
      entregue :| true;
      envios := envios + [Envio(Whatsapp(numero, mensagem), entregue)];
    }
  }
}
