/** What the three bank codecs share: the outcome of a barcode request, the record
    that Bs2 and Sisprime parse a free field into, the required-field check, and the
    layout of the barcode around its check digit. */
module Boleto {
  import opened Php
  import opened Util

  /** The result of asking for the barcode: the 44-position code, or the failure
      raised when required document fields are blank (the names of those fields;
      the message text is not modelled). */
  datatype Outcome = Barcode(code: string) | MissingFieldError(fields: seq<string>)

  /** The array returned by Bs2::parseCampoLivre and Sisprime::parseCampoLivre; the
      keys their layout does not carry are always null (None). */
  datatype AccountFields = AccountFields(
    convenio: Option<string>,
    agenciaDv: Option<string>,
    codigoCliente: Option<string>,
    carteira: Option<string>,
    nossoNumero: string,
    nossoNumeroDv: string,
    nossoNumeroFull: string,
    agencia: string,
    contaCorrente: string,
    contaCorrenteDv: Option<string>)

  /** The required fields that are blank, in their order in the required list. */
  function MissingFields(required: seq<string>, blank: set<string>): (r: seq<string>)
    ensures forall f :: f in r <==> f in required && f in blank
    ensures |r| <= |required|
  {
    if required == [] then []
    else (if required[0] in blank then [required[0]] else []) + MissingFields(required[1..], blank)
  }

  /** The 43-position code without check digit: bank code padded to 3, currency,
      due-date factor, amount padded to 10, free field. */
  function Codigo(codigoBanco: string, moeda: string, fator: string, valor: string, campoLivre: string): (r: string)
    ensures |r| == 13 + |moeda| + |fator| + |campoLivre|
    ensures r[..3] == Pad(codigoBanco, 3)
    ensures r[3..3 + |moeda|] == moeda
    ensures r[3 + |moeda|..3 + |moeda| + |fator|] == fator
    ensures r[3 + |moeda| + |fator|..13 + |moeda| + |fator|] == Pad(valor, 10)
    ensures r[13 + |moeda| + |fator|..] == campoLivre
  {
    Pad(codigoBanco, 3) + moeda + fator + Pad(valor, 10) + campoLivre
  }

  /** `substr($codigo, 0, 4) . $dv . substr($codigo, 4)`: the check digit placed at
      0-based position 4. Deleting it gives back the code. */
  function Splice(codigo: string, dv: string): (r: string)
    ensures |r| == |codigo| + |dv|
    ensures |codigo| >= 4 ==> r[..4] == codigo[..4] && r[4..4 + |dv|] == dv
    ensures |codigo| >= 4 ==> r[..4] + r[4 + |dv|..] == codigo
    ensures |codigo| < 4 ==> r == codigo + dv
  {
    var r := Substr(codigo, 0, 4) + dv + SubstrFrom(codigo, 4);
    assert |codigo| >= 4 ==> r[..4] + r[4 + |dv|..] == codigo[..4] + codigo[4..];
    r
  }
}
