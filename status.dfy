/** The three-valued lifecycle shared by raw schemas, organizations, apps, event contexts and events
    (metadata/core/domain/status.py). Every `set_status` of the core assigns any value: there is no
    transition table in the source, so none is modelled. */
module EntityStatus {

  datatype Status = NotReady | Success | NeedsUpdate
}
