/**
 * The backend selector of the connection-settings form: which download
 * backend is selected, the picker that offers the supported backends, the one
 * backend-specific form mounted for the selection, and the extraction call
 * that forwards to whatever form is mounted.
 */
module ConnectionSettings {
  import opened Wrappers
  import opened Text

  /** The supported download backends. */
  datatype Client = QBittorrent | RTorrent | Transmission

  /** The identifier a backend goes by in settings values and in the picker. */
  function ClientName(c: Client): string {
    match c
    case QBittorrent => "qBittorrent"
    case RTorrent => "rTorrent"
    case Transmission => "Transmission"
  }

  /** Reads a backend identifier back; any other string names no backend. */
  function ClientFromName(id: string): (r: Option<Client>)
    ensures r.Some? ==> ClientName(r.value) == id
    ensures forall c: Client :: ClientName(c) == id ==> r == Some(c)
  {
    if id == "qBittorrent" then Some(QBittorrent)
    else if id == "rTorrent" then Some(RTorrent)
    else if id == "Transmission" then Some(Transmission)
    else None
  }

  /** The ordered list of supported backends; its order is the picker's order. */
  const SupportedClients: seq<Client> := [QBittorrent, RTorrent, Transmission]

  /** The backend selected when the selector is created. */
  const DefaultSelection: Client := RTorrent

  const MessagePrefix: string := "connection.settings."
  const PickerLabelKey: string := "connection.settings.client.select"

  /** One picker entry: React key, the id reported on selection, and the message key of its label. */
  datatype SelectItem = SelectItem(key: string, id: string, messageId: string)

  /** The picker entries, one per backend of `clients`, in the same order. */
  function PickerItems(clients: seq<Client>): (items: seq<SelectItem>)
    ensures |items| == |clients|
    ensures forall i :: 0 <= i < |clients| ==>
      && items[i].key == ClientName(clients[i])
      && items[i].id == ClientName(clients[i])
      && items[i].messageId == MessagePrefix + ToLower(ClientName(clients[i]))
  {
    if clients == [] then []
    else
      var name := ClientName(clients[0]);
      [SelectItem(name, name, MessagePrefix + ToLower(name))] + PickerItems(clients[1..])
  }

  /** Every id the picker can report names the backend of that entry, so the selection handler's cast is sound. */
  lemma PickerIdsNameClients(clients: seq<Client>)
    ensures forall i :: 0 <= i < |clients| ==> ClientFromName(PickerItems(clients)[i].id) == Some(clients[i])
  {
  }

  /** The supported backends' picker labels use the lower-cased backend names as message keys. */
  lemma SupportedPickerKeys()
    ensures |PickerItems(SupportedClients)| == 3
    ensures PickerItems(SupportedClients)[0].messageId == MessagePrefix + "qbittorrent"
    ensures PickerItems(SupportedClients)[1].messageId == MessagePrefix + "rtorrent"
    ensures PickerItems(SupportedClients)[2].messageId == MessagePrefix + "transmission"
  {
  }

  /** The three backend-specific forms. */
  datatype SettingsFormKind = QBittorrentSettingsForm | RTorrentSettingsForm | TransmissionSettingsForm

  /** The backend a form produces settings for. */
  function FormClient(k: SettingsFormKind): Client {
    match k
    case QBittorrentSettingsForm => QBittorrent
    case RTorrentSettingsForm => RTorrent
    case TransmissionSettingsForm => Transmission
  }

  /** The `switch` in render: the form mounted for a selection is the one for that backend. */
  function FormFor(c: Client): (k: SettingsFormKind)
    ensures FormClient(k) == c
  {
    match c
    case QBittorrent => QBittorrentSettingsForm
    case RTorrent => RTorrentSettingsForm
    case Transmission => TransmissionSettingsForm
  }

  /** Each form kind is chosen for exactly one backend: the switch is a bijection. */
  lemma FormForIsBijective(c: Client, k: SettingsFormKind)
    ensures FormFor(c) == k <==> FormClient(k) == c
  {
  }

  /**
   * A settings value, tagged with its backend. The backend-specific fields are
   * opaque here: they are whatever the mounted form's inputs hold.
   */
  datatype Settings = Settings(client: Client, fields: map<string, string>)

  /** What render produces: the picker and the kind of form mounted beneath it. */
  datatype Picker = Picker(labelKey: string, defaultID: string, items: seq<SelectItem>)
  datatype View = View(picker: Picker, form: SettingsFormKind)

  /** A mounted backend-specific form: a fixed kind and the user's current inputs. */
  class BackendSettingsForm {
    const kind: SettingsFormKind
    var inputs: map<string, string>

    constructor (kind: SettingsFormKind)
      ensures this.kind == kind && inputs == map[]
    {
      this.kind := kind;
      inputs := map[];
    }

    /** The user types `value` into the field `field`. */
    method Edit(field: string, value: string)
      modifies this
      ensures inputs == old(inputs)[field := value]
    {
      inputs := inputs[field := value];
    }

    /** Extraction always succeeds and tags the value with this form's own backend. */
    function GetConnectionSettings(): (s: Settings)
      reads this
      ensures s.client == FormClient(kind)
      ensures s.fields == inputs
    {
      Settings(FormClient(kind), inputs)
    }
  }

  /** The selector component: its `client` state and its handle on the mounted form. */
  class ClientConnectionSettingsForm {
    var client: Client
    var settingsRef: BackendSettingsForm?

    /** The handle points at a form, and it is the form for the selected backend. */
    ghost predicate Mounted()
      reads this, settingsRef
    {
      settingsRef != null && FormClient(settingsRef.kind) == client
    }

    /** A fresh selector has the default backend selected and nothing mounted yet. */
    constructor ()
      ensures client == DefaultSelection && settingsRef == null
    {
      client := DefaultSelection;
      settingsRef := null;
    }

    /**
     * The view for the current state: the picker offers every supported
     * backend and always defaults to DefaultSelection, and the form is the one
     * for the selected backend.
     */
    function Render(): (v: View)
      reads this
      ensures FormClient(v.form) == client
      ensures v.picker.labelKey == PickerLabelKey
      ensures v.picker.items == PickerItems(SupportedClients)
      ensures ClientFromName(v.picker.defaultID) == Some(DefaultSelection)
      ensures exists i :: 0 <= i < |v.picker.items| && v.picker.items[i].id == v.picker.defaultID
    {
      var items := PickerItems(SupportedClients);
      assert items[1].id == ClientName(DefaultSelection);
      View(Picker(PickerLabelKey, ClientName(DefaultSelection), items), FormFor(client))
    }

    /** The picker's selection handler: the state becomes the picked backend, nothing else changes. */
    method OnSelect(selected: Client)
      modifies this`client
      ensures client == selected
    {
      client := selected;
    }

    /**
     * React's commit of the rendered view: a form of the same kind as the one
     * already mounted stays mounted with its inputs; otherwise the old form is
     * discarded and a new, empty form of the rendered kind is mounted.
     */
    method CommitRender()
      modifies this`settingsRef
      ensures Mounted()
      ensures old(settingsRef) != null && old(settingsRef).kind == FormFor(client) ==> settingsRef == old(settingsRef)
      ensures old(settingsRef) == null || old(settingsRef).kind != FormFor(client) ==>
        fresh(settingsRef) && settingsRef.inputs == map[]
    {
      var kind := Render().form;
      if settingsRef == null || settingsRef.kind != kind {
        settingsRef := new BackendSettingsForm(kind);
      }
    }

    /**
     * Forwards to the mounted form; gives None (the source's `null`) exactly
     * when nothing is mounted, and never fails.
     */
    function GetConnectionSettings(): (r: Option<Settings>)
      reads this, settingsRef
      ensures r.None? <==> settingsRef == null
      ensures r.Some? ==> r.value == settingsRef.GetConnectionSettings()
      ensures Mounted() ==> r.Some? && r.value.client == client
    {
      if settingsRef == null then None else Some(settingsRef.GetConnectionSettings())
    }
  }

  /** Before the first commit there is no form, so extraction gives None. */
  method ExtractBeforeMount() returns (r: Option<Settings>)
    ensures r == None
  {
    var selector := new ClientConnectionSettingsForm();
    r := selector.GetConnectionSettings();
  }

  /** Picking any backend and committing the view yields settings tagged with that backend. */
  method SelectAndExtract(c: Client) returns (r: Option<Settings>)
    ensures r.Some? && r.value.client == c
  {
    var selector := new ClientConnectionSettingsForm();
    selector.CommitRender();
    selector.OnSelect(c);
    selector.CommitRender();
    r := selector.GetConnectionSettings();
  }

  /**
   * Input typed into the default form is lost after switching to another
   * backend and back: the form mounted again starts empty.
   */
  method SwitchAwayAndBack(other: Client, field: string, value: string) returns (before: Option<Settings>, after: Option<Settings>)
    requires other != DefaultSelection
    ensures before == Some(Settings(DefaultSelection, map[field := value]))
    ensures after == Some(Settings(DefaultSelection, map[]))
  {
    var selector := new ClientConnectionSettingsForm();
    selector.CommitRender();
    selector.settingsRef.Edit(field, value);
    before := selector.GetConnectionSettings();
    selector.OnSelect(other);
    selector.CommitRender();
    selector.OnSelect(DefaultSelection);
    selector.CommitRender();
    after := selector.GetConnectionSettings();
  }
}
