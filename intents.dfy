/**
 * The order intents a language model reply is parsed into (app/utils/llamaUtil.ts).
 * The model call and the JSON parsing are outside this model; intents arrive already parsed.
 */
module Intents {
  import opened Wrappers

  datatype OrderAction = Add | Remove | Clear | Checkout

  datatype OrderIntent = OrderIntent(action: OrderAction, itemName: Option<string>, quantity: Option<int>)
}
