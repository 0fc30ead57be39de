/**
 * What the messaging channel delivers and what the bot sends back. Reply
 * texts are named by their lexicon keys; the two inline keyboards and the
 * greeting photo are tags.
 */
module Chat {

  /** An inbound update: a text message or an inline-button press with its payload. */
  datatype Event = Message(text: string) | Button(data: string)

  /** The two inline layouts: register + log in, or register only. */
  datatype Keyboard = NoKeyboard | RegisterOrLogin | RegisterOnly

  /** Lexicon keys of the texts the bot sends. */
  datatype Phrase =
    | InputFirstName | InputLastName | ErrorFirstName | ErrorLastName
    | InputNameSubject | InputPointsSubject | ErrorNameSubject | ErrorPointsSubject
    | Cancel | CancelInputFsm
    | StartMessage | StartReg | StartNoReg | Greeting
    | Help | NotSubject | EchoMessageBot

  datatype Reply =
    | Say(phrase: Phrase, keyboard: Keyboard)
    | Photo(caption: Phrase)
    | ScoreLine(subject: string, points: int)
}
