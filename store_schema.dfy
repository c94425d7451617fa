/**
 * The parts of the store's channel-map schema (`snap_python.schemas.store.info.ChannelMapItem`)
 * that the track conversion and the scraper read, and the Python exceptions the modelled code raises.
 * A field is optional here exactly where the modelled code tests it for `None` or for falsiness.
 */
module StoreSchema {
  import opened Wrappers

  /** An aware datetime. The modelled code only copies it, so its contents are never inspected. */
  datatype Timestamp = Timestamp(epochSeconds: int, utcOffsetMinutes: int)

  /** The `channel` of a channel-map item. */
  datatype Channel = Channel(
    name: string,
    architecture: string,
    track: Option<string>,
    risk: Option<string>,
    releasedAt: Option<Timestamp>)

  /** One entry of a snap's channel map, as returned by the store's info endpoint. */
  datatype ChannelMapItem = ChannelMapItem(
    architectures: Option<seq<string>>,
    base: Option<string>,
    channel: Option<Channel>,
    confinement: Option<string>,
    createdAt: Option<Timestamp>,
    revision: Option<int>,
    version: Option<string>)

  /** The exceptions raised by the modelled code. */
  datatype Error =
      /** `None.track`: an item without a channel reached `item.channel.track`. */
    | AttributeError
      /** `str.join` met a `None` track name, or `max` compared a `None` revision. */
    | TypeError
      /** A failed `assert ... is not None`; `field` names what was missing. */
    | AssertionError(field: string)
      /** pydantic refused to build a model; `fields` are the fields it rejected. */
    | ValidationError(fields: set<string>)
      /** The `ValueError` raised by the architecture validator. */
    | InvalidArchitecture(value: string)
      /** The `ValueError` raised by `max` on an empty sequence. */
    | EmptyMaxArgument
}
