/**
 * The four communication personas. questions.py, signatures_content.py and
 * convert_questions_to_text_to_bank.py each declare this same list, in this order.
 */
module Personas {

  const PERSONAS: seq<string> := ["Listener", "Motivator", "Director", "Expert"]
}
