/** The Sisprime bank codec: own number carteira(3) + numero(10) + DV, free field
    agencia(4) + conta and its DV (10) + own number, its parser, and the barcode
    whose check digit comes from CalculoDV::unicredCodigoBarra. */
module BancoSisprime {
  import opened Php
  import opened Util
  import opened Boleto

  const NossoNumeroMask := "###/##########-#"

  /** parseCampoLivre: the same positional split as Bs2's: agencia (0..4),
      contaCorrente (4..14), nossoNumero (14..24), nossoNumeroDv (24..25),
      nossoNumeroFull (14..); the other five keys are always null. */
  function ParseCampoLivre(campoLivre: string): (r: AccountFields)
    ensures r.convenio == None && r.agenciaDv == None && r.codigoCliente == None
    ensures r.carteira == None && r.contaCorrenteDv == None
    ensures |campoLivre| >= 14 ==> r.agencia + r.contaCorrente + r.nossoNumeroFull == campoLivre
    ensures |campoLivre| >= 14 ==> |r.agencia| == 4 && |r.contaCorrente| == 10
    ensures |campoLivre| >= 24 ==> r.nossoNumero == r.nossoNumeroFull[..10]
    ensures |campoLivre| >= 25 ==> r.nossoNumeroDv == r.nossoNumeroFull[10..11]
    ensures |campoLivre| <= 24 ==> r.nossoNumeroDv == ""
  {
    AccountFields(
      convenio := None,
      agenciaDv := None,
      codigoCliente := None,
      carteira := None,
      nossoNumero := Substr(campoLivre, 14, 10),
      nossoNumeroDv := Substr(campoLivre, 24, 1),
      nossoNumeroFull := SubstrFrom(campoLivre, 14),
      agencia := Substr(campoLivre, 0, 4),
      contaCorrente := Substr(campoLivre, 4, 10),
      contaCorrenteDv := None)
  }

  class Sisprime {
    /** Document fields, fixed at construction. */
    const codigoBanco: string
    const moeda: string
    /** The due-date factor, computed from the due date by the surrounding boleto. */
    const fatorVencimento: string
    /** The amount as the digits handed to numberFormatGeral. */
    const valor: string
    const agencia: string
    const conta: string
    const contaDv: string
    const carteira: string
    const numero: string
    /** The required fields the inherited validation checks. */
    const camposObrigatorios: seq<string>
    /** CalculoDV::sisprimeNossoNumero(agencia, conta, carteira, numero), not part of this model. */
    const sisprimeNossoNumero: (string, string, string, string) -> string
    /** CalculoDV::unicredCodigoBarra, not part of this model. */
    const unicredCodigoBarra: string -> string

    /** Write-once caches; "" (or "0") means unset. */
    var campoLivre: string
    var campoCodigoBarras: string

    constructor (codigoBanco: string, moeda: string, fatorVencimento: string, valor: string,
                 agencia: string, conta: string, contaDv: string, carteira: string, numero: string,
                 camposObrigatorios: seq<string>,
                 sisprimeNossoNumero: (string, string, string, string) -> string,
                 unicredCodigoBarra: string -> string,
                 campoLivre: string, campoCodigoBarras: string)
      ensures this.codigoBanco == codigoBanco && this.moeda == moeda
      ensures this.fatorVencimento == fatorVencimento && this.valor == valor
      ensures this.agencia == agencia && this.conta == conta && this.contaDv == contaDv
      ensures this.carteira == carteira && this.numero == numero
      ensures this.camposObrigatorios == camposObrigatorios
      ensures this.sisprimeNossoNumero == sisprimeNossoNumero && this.unicredCodigoBarra == unicredCodigoBarra
      ensures this.campoLivre == campoLivre && this.campoCodigoBarras == campoCodigoBarras
    {
      this.codigoBanco := codigoBanco;
      this.moeda := moeda;
      this.fatorVencimento := fatorVencimento;
      this.valor := valor;
      this.agencia := agencia;
      this.conta := conta;
      this.contaDv := contaDv;
      this.carteira := carteira;
      this.numero := numero;
      this.camposObrigatorios := camposObrigatorios;
      this.sisprimeNossoNumero := sisprimeNossoNumero;
      this.unicredCodigoBarra := unicredCodigoBarra;
      this.campoLivre := campoLivre;
      this.campoCodigoBarras := campoCodigoBarras;
    }

    /** The DV of the own number, from the agency (4), account (5), wallet (3) and
        document number (10), each zero-padded. */
    function NossoNumeroDv(): string {
      sisprimeNossoNumero(Pad(agencia, 4), Pad(conta, 5), Pad(carteira, 3), Pad(numero, 10))
    }

    /** gerarNossoNumero: wallet padded to 3, document number padded to 10, then the DV. */
    function GerarNossoNumero(): (r: string)
      ensures |r| == 13 + |NossoNumeroDv()|
      ensures r[..3] == Pad(carteira, 3) && r[3..13] == Pad(numero, 10) && r[13..] == NossoNumeroDv()
    {
      Pad(carteira, 3) + Pad(numero, 10) + NossoNumeroDv()
    }

    /** getNossoNumeroBoleto: the own number under the mask "###/##########-#", whose
        14 placeholders match 3 + 10 + 1: it formats exactly when the DV is one
        character. */
    function NossoNumeroBoleto(): (r: Option<string>)
      ensures r.Some? <==> |NossoNumeroDv()| == 1
      ensures r.Some? ==>
        r.value == Pad(carteira, 3) + "/" + Pad(numero, 10) + "-" + NossoNumeroDv()
      ensures r.Some? ==> Unmask(r.value, NossoNumeroMask) == GerarNossoNumero()
    {
      MaskFourteenPlaceholders();
      var nn := GerarNossoNumero();
      if |nn| == 14 then MaskShape(nn); Mask(nn, NossoNumeroMask) else Mask(nn, NossoNumeroMask)
    }

    /** The free field as getCampoLivre builds it: agency padded to 4, account with
        its DV padded to 10, then the own number -- 14 + |own number| positions,
        which is 28 (not 25) for a one-character DV. */
    function CampoLivreCalculado(): (r: string)
      ensures |r| == 14 + |GerarNossoNumero()| && IsSet(r)
      ensures r[..4] == Pad(agencia, 4) && r[4..14] == Pad(conta + contaDv, 10)
      ensures r[14..] == GerarNossoNumero()
      ensures |NossoNumeroDv()| == 1 ==> |r| == 28
    {
      Pad(agencia, 4) + Pad(conta + contaDv, 10) + GerarNossoNumero()
    }

    /** The free field getCampoLivre returns given the cache's content. */
    function CampoLivreFrom(cached: string): (r: string)
      ensures IsSet(r)
      ensures IsSet(cached) ==> r == cached
      ensures !IsSet(cached) ==> r == CampoLivreCalculado()
    {
      if IsSet(cached) then cached else CampoLivreCalculado()
    }

    /** The code without check digit that getCodigoBarras builds for a free field. */
    function Codigo(cl: string): (r: string)
      ensures |r| == 13 + |moeda| + |fatorVencimento| + |cl|
      ensures r[13 + |moeda| + |fatorVencimento|..] == cl
    {
      Boleto.Codigo(codigoBanco, moeda, fatorVencimento, valor, cl)
    }

    /** The barcode for a free field: the code with unicredCodigoBarra's digit at
        position 4; removing that digit gives the code back. */
    function CodigoBarras(cl: string): (r: string)
      ensures |r| == |Codigo(cl)| + |unicredCodigoBarra(Codigo(cl))|
      ensures |Codigo(cl)| >= 4 ==> r[4..4 + |unicredCodigoBarra(Codigo(cl))|] == unicredCodigoBarra(Codigo(cl))
      ensures |Codigo(cl)| >= 4 ==> r[..4] + r[4 + |unicredCodigoBarra(Codigo(cl))|..] == Codigo(cl)
    {
      var codigo := Codigo(cl);
      Splice(codigo, unicredCodigoBarra(codigo))
    }

    /** getCampoLivre: a set cache is returned untouched; otherwise the free field is
        built, stored and returned. Either way the cache is set afterwards. */
    method GetCampoLivre() returns (r: string)
      modifies this`campoLivre
      ensures r == campoLivre && campoLivre == CampoLivreFrom(old(campoLivre))
      ensures old(IsSet(campoLivre)) ==> campoLivre == old(campoLivre)
      ensures IsSet(campoLivre)
    {
      if IsSet(campoLivre) {
        return campoLivre;
      }
      var cl := Pad(agencia, 4);
      cl := cl + Pad(conta + contaDv, 10);
      cl := cl + GerarNossoNumero();
      campoLivre := cl;
      r := campoLivre;
    }

    /** getCodigoBarras: a set cache is returned untouched; blank required fields
        fail before anything is stored; otherwise the barcode is built, stored and
        returned. */
    method GetCodigoBarras(blank: set<string>) returns (r: Outcome)
      modifies this`campoLivre, this`campoCodigoBarras
      ensures old(IsSet(campoCodigoBarras)) ==>
        r == Barcode(old(campoCodigoBarras)) && unchanged(this)
      ensures !old(IsSet(campoCodigoBarras)) && MissingFields(camposObrigatorios, blank) != [] ==>
        r == MissingFieldError(MissingFields(camposObrigatorios, blank)) && unchanged(this)
      ensures !old(IsSet(campoCodigoBarras)) && MissingFields(camposObrigatorios, blank) == [] ==>
        campoLivre == CampoLivreFrom(old(campoLivre)) &&
        campoCodigoBarras == CodigoBarras(campoLivre) && r == Barcode(campoCodigoBarras)
      ensures r.Barcode? ==> IsSet(campoCodigoBarras) && r.code == campoCodigoBarras
    {
      if IsSet(campoCodigoBarras) {
        return Barcode(campoCodigoBarras);
      }
      var missing := MissingFields(camposObrigatorios, blank);
      if missing != [] {
        return MissingFieldError(missing);
      }
      var cl := GetCampoLivre();
      var codigo := Pad(codigoBanco, 3) + moeda + fatorVencimento + Pad(valor, 10) + cl;
      var dv := unicredCodigoBarra(codigo);
      campoCodigoBarras := Substr(codigo, 0, 4) + dv + SubstrFrom(codigo, 4);
      r := Barcode(campoCodigoBarras);
    }
  }

  lemma MaskIsThreeSlashTenDashOne()
    ensures NossoNumeroMask == seq(3, _ => '#') + (['/'] + (seq(10, _ => '#') + (['-'] + "#")))
  {
  }

  lemma ThreeSlashTenDashOne(nn: string)
    requires |nn| == 14
    ensures Mask(nn, seq(3, _ => '#') + (['/'] + (seq(10, _ => '#') + (['-'] + "#"))))
         == Some(nn[..3] + "/" + nn[3..13] + "-" + nn[13..])
  {
    var tail := seq(10, _ => '#') + (['-'] + "#");
    MaskRun(nn, 3, ['/'] + tail);
    MaskLiteral(nn[3..], '/', tail);
    RunDashOne(nn[3..]);
    assert nn[3..][..10] == nn[3..13] && nn[3..][10..] == nn[13..];
    assert nn[..3] + ("/" + (nn[3..13] + "-" + nn[13..])) == nn[..3] + "/" + nn[3..13] + "-" + nn[13..];
  }

  /** The display mask puts a slash after the wallet and a dash before the DV. */
  lemma MaskShape(nn: string)
    requires |nn| == 14
    ensures Mask(nn, NossoNumeroMask) == Some(nn[..3] + "/" + nn[3..13] + "-" + nn[13..])
  {
    MaskIsThreeSlashTenDashOne();
    ThreeSlashTenDashOne(nn);
  }

  lemma MaskFourteenPlaceholders()
    ensures Placeholders(NossoNumeroMask) == 14
  {
    var hashes3, hashes10 := seq(3, _ => '#'), seq(10, _ => '#');
    assert NossoNumeroMask == hashes3 + ("/" + (hashes10 + ("-" + "#")));
    PlaceholdersOfRun(3);
    PlaceholdersOfRun(10);
    PlaceholdersAppend("-", "#");
    PlaceholdersAppend(hashes10, "-" + "#");
    PlaceholdersAppend("/", hashes10 + ("-" + "#"));
    PlaceholdersAppend(hashes3, "/" + (hashes10 + ("-" + "#")));
  }

  /** With a one-character currency and a four-digit due-date factor, the barcode of
      Sisprime's own free field has 18 + |free field| + |DV| positions. */
  lemma BarcodeWidth(s: Sisprime)
    requires |s.moeda| == 1 && |s.fatorVencimento| == 4
    ensures var cl := s.CampoLivreCalculado();
      |s.CodigoBarras(cl)| == 18 + |cl| + |s.unicredCodigoBarra(s.Codigo(cl))|
  {
  }

  /** Unlike Bs2 and Efi, the parser recovers the agency, the account with its DV
      and the full own number from the free field Sisprime builds; but its
      "nossoNumero" and "nossoNumeroDv" cut the own number at 10 and 11, so they hold
      the wallet with the first 7 digits of the number and the 8th digit. */
  lemma ParseOwnCampoLivre(s: Sisprime)
    ensures ParseCampoLivre(s.CampoLivreCalculado()).agencia == Pad(s.agencia, 4)
    ensures ParseCampoLivre(s.CampoLivreCalculado()).contaCorrente == Pad(s.conta + s.contaDv, 10)
    ensures ParseCampoLivre(s.CampoLivreCalculado()).nossoNumeroFull == s.GerarNossoNumero()
    ensures ParseCampoLivre(s.CampoLivreCalculado()).nossoNumero
         == Pad(s.carteira, 3) + Pad(s.numero, 10)[..7]
    ensures ParseCampoLivre(s.CampoLivreCalculado()).nossoNumeroDv == Pad(s.numero, 10)[7..8]
  {
    var cl := s.CampoLivreCalculado();
    var nn := s.GerarNossoNumero();
    assert cl[14..24] == nn[..10] == nn[..3] + nn[3..10];
    assert nn[3..10] == Pad(s.numero, 10)[..7];
    assert cl[24..25] == nn[10..11] == Pad(s.numero, 10)[7..8];
  }
}
