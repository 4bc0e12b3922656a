/** The postal-code (CEP) lookup of the product page: ProductPage.jsx, and its copy inside
    src/App.jsx. The ViaCEP reply is an input. */
module Cep {
  import opened Wrappers
  import opened Js
  import opened Seqs
  import opened Digits

  /** `cep.replace(/\D/g, '')`: keeps exactly the digits, in order. */
  function CleanCep(s: string): (r: string)
    ensures AllDigits(r)
    ensures IsSubsequence(r, s)
    ensures forall c :: IsDigit(c) ==> Occurrences(r, c) == Occurrences(s, c)
    ensures |r| <= |s|
    decreases |s|
  {
    if |s| == 0 then ""
    else
      var rest := CleanCep(s[1..]);
      if IsDigit(s[0]) then
        var r := [s[0]] + rest;
        assert r[1..] == rest;
        r
      else
        assert |rest| == 0 || rest[0] != s[0];
        rest
  }

  /** A string of digits is already clean. */
  lemma {:induction false} CleanCepKeepsDigits(s: string)
    requires AllDigits(s)
    ensures CleanCep(s) == s
    decreases |s|
  {
    if |s| > 0 {
      CleanCepKeepsDigits(s[1..]);
    }
  }

  /** Cleaning twice is cleaning once. */
  lemma CleanCepIdempotent(s: string)
    ensures CleanCep(CleanCep(s)) == CleanCep(s)
  {
    CleanCepKeepsDigits(CleanCep(s));
  }

  /** The masked form "01310-100" cleans to its eight digits. */
  lemma MaskedCepExample()
    ensures CleanCep("01310-100") == "01310100"
  {
  }

  /** The address the page stores after a good lookup. */
  datatype ShippingInfo = ShippingInfo(cep: string, logradouro: Json, bairro: Json, cidade: Json, uf: Json)

  /** The page's CEP state: the input text, the error line, the address, the spinner. */
  datatype CepState = CepState(cep: string, error: string, info: Option<ShippingInfo>, loading: bool)

  /** The ViaCEP exchange: a failed request (network error, non-ok status or a body
      that is not JSON) or the parsed JSON reply. */
  datatype LookupReply = LookupFailed | LookupData(data: Json)

  const InvalidCepMessage: string := "Digite um CEP válido com 8 dígitos."
  const NotFoundMessage: string := "CEP não encontrado."
  const LookupErrorMessage: string := "Não foi possível consultar o CEP no momento."

  /** Pressing "Calcular": the synchronous part of `handleCepSearch`, up to the `await`.
      A cleaned CEP of the wrong length is refused on the spot; otherwise the error line is
      cleared, the spinner starts and the cleaned CEP is queried. The address on screen is
      left as it was until the reply arrives. */
  datatype Started = Started(state: CepState, queried: Option<string>)

  /** The button is disabled while a lookup is in flight, so a search starts only when
      the spinner is off. */
  function StartSearch(st: CepState): (r: Started)
    requires !st.loading
    ensures |CleanCep(st.cep)| != 8 ==>
      r == Started(st.(error := InvalidCepMessage, info := None), None)
    ensures |CleanCep(st.cep)| == 8 ==>
      r == Started(st.(loading := true, error := ""), Some(CleanCep(st.cep)))
    ensures r.queried.Some? ==> |r.queried.value| == 8 && AllDigits(r.queried.value)
  {
    var clean := CleanCep(st.cep);
    if |clean| != 8 then Started(st.(error := InvalidCepMessage, info := None), None)
    else Started(st.(loading := true, error := ""), Some(clean))
  }

  /** The rest of `handleCepSearch`, once ViaCEP has answered for `queried`: a failed or
      null reply sets the lookup error, a reply flagged `erro` sets "not found", and a good
      reply stores the address under `queried`. The `finally` stops the spinner. The text
      in the box is whatever it is now: the input stays editable while the lookup runs. */
  function FinishSearch(st: CepState, queried: string, reply: LookupReply): (r: CepState)
    ensures r.cep == st.cep && !r.loading
    ensures (reply.LookupFailed? || Nullish(reply.data)) ==>
      r.error == LookupErrorMessage && r.info.None?
    ensures reply.LookupData? && !Nullish(reply.data) && Truthy(OptMember(reply.data, "erro")) ==>
      r.error == NotFoundMessage && r.info.None?
    ensures reply.LookupData? && !Nullish(reply.data) && !Truthy(OptMember(reply.data, "erro")) ==>
      && r.error == st.error
      && r.info == Some(ShippingInfo(queried, OptMember(reply.data, "logradouro"), OptMember(reply.data, "bairro"),
                                     OptMember(reply.data, "localidade"), OptMember(reply.data, "uf")))
  {
    var done := st.(loading := false);
    match reply
    case LookupFailed => done.(error := LookupErrorMessage, info := None)
    case LookupData(data) =>
      if Nullish(data) then done.(error := LookupErrorMessage, info := None)
      else if Truthy(OptMember(data, "erro")) then done.(error := NotFoundMessage, info := None)
      else
        done.(info := Some(ShippingInfo(queried, OptMember(data, "logradouro"), OptMember(data, "bairro"),
                                        OptMember(data, "localidade"), OptMember(data, "uf"))))
  }

  /** A search whose reply arrives before the text is edited again. */
  function SearchCep(st: CepState, reply: LookupReply): (r: CepState)
    requires !st.loading
    ensures |CleanCep(st.cep)| != 8 ==> r == st.(error := InvalidCepMessage, info := None)
    ensures r.cep == st.cep && !r.loading
    ensures r.info.Some? ==>
      && r.error == ""
      && r.info.value.cep == CleanCep(st.cep)
      && |r.info.value.cep| == 8
      && AllDigits(r.info.value.cep)
    ensures r.info.None? ==> r.error != ""
    ensures |CleanCep(st.cep)| == 8 && reply.LookupData? && !Nullish(reply.data) && Truthy(OptMember(reply.data, "erro")) ==>
      r.error == NotFoundMessage && r.info.None?
    ensures |CleanCep(st.cep)| == 8 && (reply.LookupFailed? || Nullish(reply.data)) ==>
      r.error == LookupErrorMessage && r.info.None?
    ensures |CleanCep(st.cep)| == 8 && reply.LookupData? && !Nullish(reply.data) && !Truthy(OptMember(reply.data, "erro")) ==>
      r.info.Some? && r.info.value.cidade == OptMember(reply.data, "localidade")
  {
    var s := StartSearch(st);
    if s.queried.None? then s.state else FinishSearch(s.state, s.queried.value, reply)
  }

  /** The input's `onChange`: new text, no error, no address. */
  function EditCep(st: CepState, text: string): (r: CepState)
    ensures r.cep == text && r.error == "" && r.info.None?
    ensures r.loading == st.loading
  {
    st.(cep := text, error := "", info := None)
  }

  /** The page never holds an address together with an error line, and while a lookup is
      in flight the error line is empty. */
  predicate Consistent(st: CepState) {
    && (st.info.Some? ==> st.error == "")
    && (st.loading ==> st.error == "")
  }

  /** Every step of the page keeps it consistent, whatever order the steps come in:
      a search starting, an edit (also while a lookup runs), and the reply landing. */
  lemma ConsistentPreserved(st: CepState, reply: LookupReply, text: string, queried: string)
    requires Consistent(st)
    ensures !st.loading ==> Consistent(StartSearch(st).state)
    ensures Consistent(EditCep(st, text))
    ensures st.loading ==> Consistent(FinishSearch(st, queried, reply))
  {
  }

  // ---------------------------------------------------------------------------
  // A reply that arrives after the text was edited
  // ---------------------------------------------------------------------------

  /** The address on screen belongs to the CEP in the input box. */
  predicate AddressMatches(st: CepState) {
    st.info.Some? ==> st.info.value.cep == CleanCep(st.cep)
  }

  /** As written, a reply that lands after the text was edited stores the address of the
      CEP that was queried under the new text: search 01310100, type 20040002 while the
      lookup runs, and the old street is shown for the new CEP. */
  lemma StaleAddressShown(data: Json)
    requires Truthy(data) && !Truthy(OptMember(data, "erro"))
    ensures var st0 := CepState("01310100", "", None, false);
      var s := StartSearch(st0);
      var edited := EditCep(s.state, "20040002");
      var r := FinishSearch(edited, s.queried.value, LookupData(data));
      && AddressMatches(st0) && AddressMatches(edited)
      && r.info.Some? && r.info.value.cep == "01310100" && r.cep == "20040002"
      && !AddressMatches(r)
  {
    CleanLiterals();
    var st0 := CepState("01310100", "", None, false);
    var s := StartSearch(st0);
    assert s == Started(st0.(loading := true, error := ""), Some("01310100"));
  }

  /** The two postal codes of the scenario above are clean and different. */
  lemma CleanLiterals()
    ensures CleanCep("01310100") == "01310100" && CleanCep("20040002") == "20040002"
    ensures "01310100" != "20040002"
  {
    var a, b := "01310100", "20040002";
    assert AllDigits(a) && AllDigits(b);
    CleanCepKeepsDigits(a);
    CleanCepKeepsDigits(b);
    assert a[1] != b[1];
  }

  /** Corrected: a reply for a CEP that is no longer the one in the box is dropped; only
      the spinner stops. */
  function FinishSearchCorrected(st: CepState, queried: string, reply: LookupReply): (r: CepState)
    ensures CleanCep(st.cep) != queried ==> r == st.(loading := false)
    ensures CleanCep(st.cep) == queried ==> r == FinishSearch(st, queried, reply)
  {
    if CleanCep(st.cep) != queried then st.(loading := false) else FinishSearch(st, queried, reply)
  }

  /** With the corrected reply handling, the address on screen always belongs to the CEP
      in the box, through any interleaving of searches, edits and late replies. */
  lemma AddressMatchesInput(st: CepState, reply: LookupReply, text: string, queried: string)
    requires AddressMatches(st)
    ensures !st.loading ==> AddressMatches(StartSearch(st).state)
    ensures AddressMatches(EditCep(st, text))
    ensures AddressMatches(FinishSearchCorrected(st, queried, reply))
    ensures Consistent(st) && st.loading ==> Consistent(FinishSearchCorrected(st, queried, reply))
  {
  }
}
