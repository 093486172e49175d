/** What the bridges and the virtual device do to the outside world, as
    values: MQTT publishes and Telegram messages. */
module Effects {
  import opened Json

  newtype byte = x: int | 0 <= x < 256

  /** An MQTT payload as it arrives on the wire. */
  type Bytes = seq<byte>

  datatype Action =
      /** `client.publish(topic, payload)` with a text payload. */
    | Publish(topic: string, payload: string)
      /** `client.publish(topic, json.dumps(record))`. */
    | PublishJson(topic: string, record: Json)
      /** `bot.send_message(chat_id=chat, text=text)`, a push to a chat. */
    | Send(chat: int, text: string)
      /** `update.message.reply_text(text)`, an answer in the sender's chat. */
    | Reply(text: string)
}
