/** The exceptions the module can raise, one constructor per distinct failure. */
module Errors {

  datatype Error =
    | InvalidModel(value: string)     // ValueError from `Llm(value)`
    | UnmappedModel                   // KeyError from the Bedrock model-id table
    | EmptyConversation               // IndexError from `messages[0]`
    | MalformedDataUrl(url: string)   // IndexError from splitting an image data URL
    | MissingKey(key: string)         // KeyError while reading a decoded stream event
    | NoResponse                      // "No HTML response found in AI response"
}
