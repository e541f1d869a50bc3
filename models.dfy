/** The backend's payment records (`Backend.Models`). */
module Models {
  datatype ProcessorType = Default | Fallback

  /** The JSON name of a processor, as the enum converter writes it. */
  function ProcessorName(p: ProcessorType): (name: string)
    ensures name == "default" || name == "fallback"
  {
    match p
    case Default => "default"
    case Fallback => "fallback"
  }

  lemma ProcessorNameInjective(p: ProcessorType, q: ProcessorType)
    ensures ProcessorName(p) == ProcessorName(q) <==> p == q
  {
  }

  datatype PaymentRequest = PaymentRequest(correlationId: string, amount: real)

  datatype PaymentProcessorRequest = PaymentProcessorRequest(correlationId: string, amount: real, requestedAt: string)

  datatype ProcessedPayment = ProcessedPayment(correlationId: string, amount: real, processor: ProcessorType, requestedAt: string)

  /** The record sent to the database server: the processor as its lower-case name. */
  datatype DatabaseProcessedPayment = DatabaseProcessedPayment(correlationId: string, amount: real, processor: string, requestedAt: string)

  datatype PaymentSummaryData = PaymentSummaryData(totalRequests: real, totalAmount: real)

  datatype PaymentSummary = PaymentSummary(default: PaymentSummaryData, fallback: PaymentSummaryData)

  const EmptySummary := PaymentSummary(PaymentSummaryData(0.0, 0.0), PaymentSummaryData(0.0, 0.0))
}
