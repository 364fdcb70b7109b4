/** The document sent to the "create document" method and the wire payload
    built from it. */
module Documents {

  datatype DocumentIntroductionFormat = DocumentIntroductionFormat(
    documentTypeFormat: string,
    documentTypeRussianProduct: string)

  datatype DocumentRussianProductIntroduction = DocumentRussianProductIntroduction(
    documentType: DocumentIntroductionFormat,
    productDocument: string,
    productGroup: string)

  /** The body of the create call; its fields are document_format,
      product_document, product_group, type and signature on the wire. */
  datatype MethodPayload = MethodPayload(
    documentFormat: string,
    productDocument: string,
    productGroup: string,
    documentKind: string,
    signature: string)

  /** The answer of the create call. */
  datatype DocumentId = DocumentId(value: string)

  /** preparePayload(document, signature). As written, product_group is filled
      from the document's productDocument, not from its productGroup. */
  function PreparePayload(document: DocumentRussianProductIntroduction, signature: string): (p: MethodPayload)
    ensures p.documentFormat == document.documentType.documentTypeFormat
    ensures p.documentKind == document.documentType.documentTypeRussianProduct
    ensures p.productDocument == document.productDocument
    ensures p.productGroup == document.productDocument
    ensures p.signature == signature
  {
    MethodPayload(
      document.documentType.documentTypeFormat,
      document.productDocument,
      document.productDocument,
      document.documentType.documentTypeRussianProduct,
      signature)
  }

  /** The document's own productGroup never reaches the payload: documents that
      differ only in it produce the same payload. */
  lemma PayloadIgnoresProductGroup(d: DocumentRussianProductIntroduction, group: string, signature: string)
    ensures PreparePayload(d.(productGroup := group), signature) == PreparePayload(d, signature)
  {
  }

  /** Two payloads are equal exactly when the documents agree on their format
      and product document and the signatures agree: the payload loses the
      product group and nothing else. */
  lemma PayloadDeterminedBy(d1: DocumentRussianProductIntroduction, d2: DocumentRussianProductIntroduction, s1: string, s2: string)
    ensures PreparePayload(d1, s1) == PreparePayload(d2, s2) <==>
              d1.documentType == d2.documentType && d1.productDocument == d2.productDocument && s1 == s2
  {
  }
}
