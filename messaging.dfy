/** What the services hand to KafkaTemplate.send: a topic and a text payload. */
module Messaging {

  datatype KafkaMessage = KafkaMessage(topic: string, payload: string)
}
